# Execution-course site builder

A Dafny model of `ExecutionCourseSiteBuilder`, the fenixedu-learning component that
turns an execution course into a content site. It has four parts:

- **Registry.** A builder registry keeps one execution-course builder in the platform's
  set of site builders. `getInstance` returns the registered builder, or builds a new one
  that adds itself to the set.
- **Slug and description.** The site slug joins the course code and external id with
  "-". The site description is the first non-null objectives text among the course's
  competence courses, in their enumeration order. It falls back to the course name.
- **Site construction.** `create` builds the site in a fixed order:
  - two menus;
  - the "summary" and "announcement" categories, each with a post listing;
  - an initial page;
  - 17 more system-menu pages;
  - a post-view page outside any menu.

  The "groupings" and "marks" pages are restricted to the course-members group. The
  site is then bound to the course.
- **Course-members group.** This group is the `or` of the course's teacher group, its
  student group and the academic-authorization group for `MANAGE_AUTHORIZATIONS`.

Files:

- `wrappers.dfy`: `Option`.
- `academic.dfy`: the academic domain. It holds the course record, competence courses,
  users, access groups and their membership, and the course-members group.
- `cms.dfy`: the content-management substrate the builder drives. A `Site` class holds
  its menus, categories, component instances and pages as sequences. It has the
  creation primitives (`new Menu`, `Page.create`, `Component.forType`,
  `getOrCreateCategoryForSlug`) and the setters the builder calls.
- `execution_course_site_builder.dfy`: the builder itself. It holds:
  - the registry and `getInstance`;
  - the slug and description functions;
  - `Create`;
  - the function `Scaffold`, which gives the exact state of the site `Create` returns;
  - the lemmas about that state.

`Create` changes the site step by step, as the source does. It is split into phase
methods that follow the source's blocks. Each phase states the new menus, categories,
components and pages in terms of the old ones. `Create` itself ensures that the finished
site's state is `Scaffold(course, author)` and that the site is well formed. The
properties of the site are proved as lemmas about `Scaffold`.

Menus and pages are referred to by position in the site's sequences. Each component
instance carries the number it was made with. So two pages share an instance exactly when
they hold equal components. This is how the model shows that the initial page and the
announcements page share one announcements listing.

## Model

| member | source | states |
|---|---|---|
| LearningSiteBuilder.ExecutionCourseSiteBuilder.constructor | src/main/java/org/fenixedu/learning/domain/executionCourse/ExecutionCourseSiteBuilder.java:67-71 | the new builder's slug is its class's simple name, and it is added to the platform's set of site builders |
| LearningSiteBuilder.ExecutionCourseSiteBuilder.GetInstance | src/main/java/org/fenixedu/learning/domain/executionCourse/ExecutionCourseSiteBuilder.java:73-78 | the returned builder is registered, and it is the only execution-course builder in the set. If one was registered already, that one is returned and the set is unchanged. Otherwise a fresh builder is returned and added. At most one builder of the kind is kept |
| LearningSiteBuilder.GetInstanceTwice | src/main/java/org/fenixedu/learning/domain/executionCourse/ExecutionCourseSiteBuilder.java:73-78 | two calls in a row return the same builder, which is the only one of its kind in the set |
| LearningSiteBuilder.Bennu.constructor | src/main/java/org/fenixedu/learning/domain/executionCourse/ExecutionCourseSiteBuilder.java:70 | the platform's set of site builders (`getSiteBuildersSet()`), here starting with builders of other kinds only, holds at most one execution-course builder |
| LearningSiteBuilder.FormatSlugForExecutionCourse | src/main/java/org/fenixedu/learning/domain/executionCourse/ExecutionCourseSiteBuilder.java:86-88 | the slug is the code, then one "-", then the external id, and nothing else |
| LearningSiteBuilder.FirstDash | src/main/java/org/fenixedu/learning/domain/executionCourse/ExecutionCourseSiteBuilder.java:86-88 | the splitter the round-trip lemma inverts (the source itself never splits a slug): the position found holds the first "-" of the string; none is found exactly when the string has no "-" |
| LearningSiteBuilder.FirstDashOfJoin | src/main/java/org/fenixedu/learning/domain/executionCourse/ExecutionCourseSiteBuilder.java:86-88 | in `a + "-" + b` with no "-" in `a`, the first "-" is the joining one |
| LearningSiteBuilder.SplitSlugInvertsFormat | src/main/java/org/fenixedu/learning/domain/executionCourse/ExecutionCourseSiteBuilder.java:86-88 | splitting a slug at its first "-" gives back the code and external id it was made of, when the code has no "-" |
| LearningSiteBuilder.SlugIsInjective | src/main/java/org/fenixedu/learning/domain/executionCourse/ExecutionCourseSiteBuilder.java:86-88 | two courses whose codes have no "-" get the same slug only when their codes and external ids are equal |
| LearningSiteBuilder.SlugCollision | src/main/java/org/fenixedu/learning/domain/executionCourse/ExecutionCourseSiteBuilder.java:86-88 | without that proviso, distinct pairs collide: ("A-B", "C") and ("A", "B-C") both give "A-B-C" |
| LearningSiteBuilder.PresentObjectives | src/main/java/org/fenixedu/learning/domain/executionCourse/ExecutionCourseSiteBuilder.java:81-83 | the mapped and null-filtered stream holds no more texts than there are competence courses, each the objectives of one of them for the period |
| LearningSiteBuilder.PresentObjectivesComplete | src/main/java/org/fenixedu/learning/domain/executionCourse/ExecutionCourseSiteBuilder.java:81-83 | the filter keeps every objectives text a competence course has for the period |
| LearningSiteBuilder.FirstPresentObjectives | src/main/java/org/fenixedu/learning/domain/executionCourse/ExecutionCourseSiteBuilder.java:80-84 | the mapped-and-filtered stream is empty exactly when no competence course has objectives for the period. Otherwise its head is the objectives text of the first competence course that has one |
| LearningSiteBuilder.GetObjectives | src/main/java/org/fenixedu/learning/domain/executionCourse/ExecutionCourseSiteBuilder.java:80-84 | the result is empty exactly when every competence course lacks objectives for the course's period. Otherwise it is the objectives text of a competence course that has one and is preceded only by courses that have none |
| LearningSiteBuilder.SiteDescription | src/main/java/org/fenixedu/learning/domain/executionCourse/ExecutionCourseSiteBuilder.java:93 | the description passed to `super.create` is either the course name or the objectives text of one of its competence courses |
| LearningSiteBuilder.DescriptionIsFirstObjectives | src/main/java/org/fenixedu/learning/domain/executionCourse/ExecutionCourseSiteBuilder.java:91-93 | the site description is the objectives text of the first competence course that has one |
| LearningSiteBuilder.DescriptionFallsBackToName | src/main/java/org/fenixedu/learning/domain/executionCourse/ExecutionCourseSiteBuilder.java:91-93 | when no competence course has objectives, the site description is the course name |
| Academic.Or | src/main/java/org/fenixedu/learning/domain/executionCourse/ExecutionCourseSiteBuilder.java:120-121 | a user is in `a.or(b)` exactly when they are in `a` or in `b` |
| Academic.OrIsUnion | src/main/java/org/fenixedu/learning/domain/executionCourse/ExecutionCourseSiteBuilder.java:120-121 | the members of `a.or(b)` are the union of the members of `a` and of `b` |
| Academic.CourseMembersGroup | src/main/java/org/fenixedu/learning/domain/executionCourse/ExecutionCourseSiteBuilder.java:120-121 | a user is a course member exactly when they teach the course, attend it, or hold the authorization to manage authorizations. The group is not the unrestricted one |
| LearningSiteBuilder.ExecutionCourseSiteBuilder.Create | src/main/java/org/fenixedu/learning/domain/executionCourse/ExecutionCourseSiteBuilder.java:90-150 | a fresh site whose whole state is `Scaffold`, and which is well formed. The state comprises: the course name; the derived description and slug; the two menus and two categories; the 19 component instances and 19 pages in creation order; initial page 0; the course |
| LearningSiteBuilder.ExecutionCourseSiteBuilder.Furnish | src/main/java/org/fenixedu/learning/domain/executionCourse/ExecutionCourseSiteBuilder.java:96-145 | starting from an empty site, it leaves the site with the scaffold's menus, system menu, categories, components and pages, and returns the initial page's position |
| LearningSiteBuilder.ExecutionCourseSiteBuilder.CreateMenus | src/main/java/org/fenixedu/learning/domain/executionCourse/ExecutionCourseSiteBuilder.java:96-103 | two menus: the first with order 0, privileged, and made the system menu; the second with order 1 and not privileged |
| LearningSiteBuilder.ExecutionCourseSiteBuilder.CreateCategoryListings | src/main/java/org/fenixedu/learning/domain/executionCourse/ExecutionCourseSiteBuilder.java:107-111 | on a site with no categories, the "summary" and "announcement" categories are created, and one new post-listing instance is made for each |
| LearningSiteBuilder.ExecutionCourseSiteBuilder.CreateInitialPage | src/main/java/org/fenixedu/learning/domain/executionCourse/ExecutionCourseSiteBuilder.java:113-118 | it makes the references, evaluation-methods and home instances. It appends the published "firstPage" page in the given menu, hosting the home instance and then the given announcements listing |
| LearningSiteBuilder.ExecutionCourseSiteBuilder.CreateTeachingPages | src/main/java/org/fenixedu/learning/domain/executionCourse/ExecutionCourseSiteBuilder.java:123-128 | the five pages from "groupings" to "evaluationMethods" are appended in the given menu. Only "groupings" is restricted, to the given group. References and evaluation methods reuse the given instances |
| LearningSiteBuilder.ExecutionCourseSiteBuilder.CreateProgramPages | src/main/java/org/fenixedu/learning/domain/executionCourse/ExecutionCourseSiteBuilder.java:129-134 | the six pages from "objectives" to the summaries page are appended in the given menu. The announcements and summaries pages host the given listings under path "category" |
| LearningSiteBuilder.ExecutionCourseSiteBuilder.CreateCompetencePages | src/main/java/org/fenixedu/learning/domain/executionCourse/ExecutionCourseSiteBuilder.java:135-139 | five pages from "prerequisites" to "ethicalPrinciples" are appended in the given menu, each with an objectives instance of its own |
| LearningSiteBuilder.ExecutionCourseSiteBuilder.CreateMarksAndViewPages | src/main/java/org/fenixedu/learning/domain/executionCourse/ExecutionCourseSiteBuilder.java:142-145 | "marks" is appended in the given menu and restricted to the given group. Then the "view" page is appended in no menu |
| LearningSiteBuilder.ScaffoldPageLayout | src/main/java/org/fenixedu/learning/domain/executionCourse/ExecutionCourseSiteBuilder.java:115-145 | the site has 19 pages, all published by the author. The first 18 are in the system menu. The last is the ViewPost "view" page, in no menu and unrestricted. A page's view group is the course-members group when its path is "groupings" or "marks", and anyone otherwise |
| LearningSiteBuilder.ScaffoldMenuLayout | src/main/java/org/fenixedu/learning/domain/executionCourse/ExecutionCourseSiteBuilder.java:96-103 | there are exactly two menus. The system menu has order 0 and is privileged. The extra menu has order 1, is not privileged and holds no page |
| LearningSiteBuilder.ScaffoldInitialPage | src/main/java/org/fenixedu/learning/domain/executionCourse/ExecutionCourseSiteBuilder.java:115-146 | the initial page is page 0, in the system menu, hosting the home instance and then the announcements listing. The announcements page hosts that same instance and the summaries page the summaries listing, both under path "category" |
| LearningSiteBuilder.ScaffoldComponentsNumbered | src/main/java/org/fenixedu/learning/domain/executionCourse/ExecutionCourseSiteBuilder.java:110-145 | the site has 19 component instances, each numbered by its creation position. Both listings list one of the two categories made at lines 107-108 |
| LearningSiteBuilder.ScaffoldPagesHostSiteComponents | src/main/java/org/fenixedu/learning/domain/executionCourse/ExecutionCourseSiteBuilder.java:117-145 | every component a page hosts is one of the site's instances |
| LearningSiteBuilder.ScaffoldWellFormed | src/main/java/org/fenixedu/learning/domain/executionCourse/ExecutionCourseSiteBuilder.java:96-147 | every menu, page, category and component reference in the built site resolves. Instances are numbered by creation, and the two categories have distinct slugs |
| LearningSiteBuilder.PageViewers | src/main/java/org/fenixedu/learning/domain/executionCourse/ExecutionCourseSiteBuilder.java:120-145 | anyone may view any page except "groupings" and "marks". Those two may be viewed only by the course's teachers, its students and holders of the manage-authorizations authorization |
| Cms.Site.constructor | src/main/java/org/fenixedu/learning/domain/executionCourse/ExecutionCourseSiteBuilder.java:93 | `super.create(name, description)` gives a site with that name and description and nothing else in it, and the site is well formed |
| Cms.Site.SetSlug | src/main/java/org/fenixedu/learning/domain/executionCourse/ExecutionCourseSiteBuilder.java:94 | only the site's slug changes, to the given one |
| Cms.Site.SetMenuPrivileged | src/main/java/org/fenixedu/learning/domain/executionCourse/ExecutionCourseSiteBuilder.java:97 | only the given menu's privileged flag changes |
| Cms.Site.SetMenuOrder | src/main/java/org/fenixedu/learning/domain/executionCourse/ExecutionCourseSiteBuilder.java:98-103 | only the given menu's order changes |
| Cms.Site.SetSystemMenu | src/main/java/org/fenixedu/learning/domain/executionCourse/ExecutionCourseSiteBuilder.java:100 | the given menu becomes the site's system menu |
| Cms.Site.SetInitialPage | src/main/java/org/fenixedu/learning/domain/executionCourse/ExecutionCourseSiteBuilder.java:146 | the given page becomes the site's initial page |
| Cms.Site.SetExecutionCourse | src/main/java/org/fenixedu/learning/domain/executionCourse/ExecutionCourseSiteBuilder.java:147 | the site is bound to the given course |
| Cms.WellFormedAfterMenuChange | src/main/java/org/fenixedu/learning/domain/executionCourse/ExecutionCourseSiteBuilder.java:96-103 | adding menus or rewriting one keeps every reference in the site resolving |
| Cms.WellFormedAfterSetSystemMenu | src/main/java/org/fenixedu/learning/domain/executionCourse/ExecutionCourseSiteBuilder.java:100 | making one of the site's menus the system menu keeps the site well formed |
| Cms.WellFormedAfterNewCategory | src/main/java/org/fenixedu/learning/domain/executionCourse/ExecutionCourseSiteBuilder.java:107-108 | creating a category under a slug the site lacks keeps category slugs distinct |
| Cms.WellFormedAfterAddComponent | src/main/java/org/fenixedu/learning/domain/executionCourse/ExecutionCourseSiteBuilder.java:110-115 | a new instance keeps the site well formed when a listing lists one of the site's categories |
| Cms.WellFormedAfterCreatePage | src/main/java/org/fenixedu/learning/domain/executionCourse/ExecutionCourseSiteBuilder.java:117-145 | a new page keeps the site well formed when its menu and hosted instances are the site's own |
| Cms.WellFormedAfterSetCanViewGroup | src/main/java/org/fenixedu/learning/domain/executionCourse/ExecutionCourseSiteBuilder.java:124 | changing a page's view group keeps the site well formed |
| Cms.WellFormedAfterSetInitialPage | src/main/java/org/fenixedu/learning/domain/executionCourse/ExecutionCourseSiteBuilder.java:146 | making one of the site's pages the initial page keeps the site well formed |
| Cms.FindCategory | src/main/java/org/fenixedu/learning/domain/executionCourse/ExecutionCourseSiteBuilder.java:107-108 | the position found holds a category with the slug; none is found exactly when no category has it |
| Cms.Site.GetOrCreateCategoryForSlug | src/main/java/org/fenixedu/learning/domain/executionCourse/ExecutionCourseSiteBuilder.java:107-108 | the returned category has the slug and belongs to the site. It is created, with the given name, only when no category has the slug; otherwise the categories are unchanged |
| Cms.Site.AddMenu | src/main/java/org/fenixedu/learning/domain/executionCourse/ExecutionCourseSiteBuilder.java:96 | `new Menu(site, title)` appends a menu with that title, ordered after the existing ones and not privileged |
| Cms.Site.AddComponent | src/main/java/org/fenixedu/learning/domain/executionCourse/ExecutionCourseSiteBuilder.java:110-115 | each `new ListCategoryPosts` or `forType` call appends a new instance, numbered after those already made |
| Cms.Site.CreatePage | src/main/java/org/fenixedu/learning/domain/executionCourse/ExecutionCourseSiteBuilder.java:117-145 | `Page.create` appends a page with the given menu, title, visibility, path, author and hosted instances, viewable by anyone |
| Cms.Site.SetCanViewGroup | src/main/java/org/fenixedu/learning/domain/executionCourse/ExecutionCourseSiteBuilder.java:124 | only the given page's view group changes |

## Left out

- Label resolution (`getLocalizedString`, lines 43-65) is not modelled. A title is the bundle and key it is looked up by, so titles are distinct whenever their keys are.
- The CMS substrate is taken as simple appends and setters. This covers `super.create`, `new Menu`, `Page.create`, `Component.forType`, `ListCategoryPosts` and `getOrCreateCategoryForSlug`. The following are assumptions about that substrate:
  - a new menu is ordered after the existing ones and is not privileged;
  - a new page is viewable by anyone;
  - `forType` makes a new instance on each call;
  - the slug given by `super.create` is provisional (""), because it is overwritten at once.
- The parent-page argument of `Page.create` is always null here and is not modelled.
- Slug-uniqueness enforcement and persistence (the generated `_Base` classes and the Fenix framework) are not modelled.
- `Authenticate.getUser()` (line 105) is ambient session state, so the page author is a parameter of `Create`.
- Group membership is evaluated against a `Directory` of teaching, attendance and authorization facts. Request-time evaluation and page rendering are not modelled.
- The registry is single-threaded. The unsynchronised race in which two first calls to `getInstance` both construct a builder is not modelled.
- `instanceof` filtering over heterogeneous builders becomes an explicit kind tag on the registry's entries.
- `Joiner.on("-")` throws on a null code or external id. The model's strings are never null, so that failure is not modelled.
- `ObjectivesFor` abstracts `getObjectivesI18N` (line 82) as a lookup in a per-period map, where a missing entry stands for null. It carries no contract of its own.
- `SlugIsInjective` needs codes without "-". Without that proviso, distinct code and external-id pairs can give the same slug, as `SlugCollision` shows.
- `super.create` (line 93) is taken to give a site with no menus, categories, components or pages. `Furnish` and `CreateCategoryListings` require that. So the two categories and the 19 instances in `Scaffold` rest on it. If the substrate added defaults, for instance a "summary" category, `getOrCreateCategoryForSlug` would reuse that category. `Cms.Site.GetOrCreateCategoryForSlug` states that case, but `Create` does not.
- `Cms.Site.CreatePage` accepts any hosted instances, as `Page.create` does. The site stays well formed only when they are the site's own, which is the requirement `Cms.WellFormedAfterCreatePage` states. The substrate methods do not carry `Valid` themselves.
