/** The execution-course site builder: the process-wide registry that holds one
    builder per kind, the slug and description a course's site gets, and the fixed
    construction of the site's menus, categories, components and pages. */
module LearningSiteBuilder {
  import opened Wrappers
  import opened Academic
  import opened Cms

  // ---------------------------------------------------------------------------
  // Titles and component classes
  // ---------------------------------------------------------------------------

  const Bundle := "resources.FenixEduLearningResources"

  const AnnouncementsTitle := BundleLabel(Bundle, "label.announcements")
  const ViewPostTitle := BundleLabel(Bundle, "label.viewPost")
  const InitialPageTitle := BundleLabel(Bundle, "label.initialPage")
  const GroupsTitle := BundleLabel(Bundle, "label.groups")
  const EvaluationsTitle := BundleLabel(Bundle, "label.evaluations")
  const ReferencesTitle := BundleLabel(Bundle, "label.bibliographicReferences")
  const ScheduleTitle := BundleLabel(Bundle, "label.schedule")
  const EvaluationMethodTitle := BundleLabel(Bundle, "label.evaluationMethods")
  const ObjectivesTitle := BundleLabel(Bundle, "label.objectives")
  const MarksTitle := BundleLabel(Bundle, "label.marks")
  const LessonPlanTitle := BundleLabel(Bundle, "label.lessonsPlanings")
  const ProgramTitle := BundleLabel(Bundle, "label.program")
  const PrerequisitesTitle := BundleLabel(Bundle, "label.prerequisites")
  const LaboratorialComponentTitle := BundleLabel(Bundle, "label.laboratorialComponent")
  const ProgrammingAndComputingComponentTitle := BundleLabel(Bundle, "label.programmingAndComputingComponent")
  const CrossCompetenceComponentTitle := BundleLabel(Bundle, "label.crossCompetenceComponent")
  const EthicalPrinciplesTitle := BundleLabel(Bundle, "label.ethicalPrinciples")
  const SummariesTitle := BundleLabel(Bundle, "label.summaries")
  const ShiftsTitle := BundleLabel(Bundle, "label.shifts")
  const MenuTitle := BundleLabel(Bundle, "label.menu")
  const ExtraMenuTitle := BundleLabel(Bundle, "label.extra.menu")

  const BibliographicReferencesComponent := "BibliographicReferencesComponent"
  const EvaluationMethodsComponent := "EvaluationMethodsComponent"
  const EvaluationsComponent := "EvaluationsComponent"
  const ExecutionCourseComponent := "ExecutionCourseComponent"
  const GroupsComponent := "GroupsComponent"
  const InitialPageComponent := "InitialPageComponent"
  const LessonPlanComponent := "LessonPlanComponent"
  const MarksComponent := "MarksComponent"
  const ObjectivesComponent := "ObjectivesComponent"
  const ScheduleComponent := "ScheduleComponent"
  const ViewPostComponent := "ViewPost"

  /** The slug every execution-course builder is given: its class's simple name. */
  const BuilderSlug := "ExecutionCourseSiteBuilder"

  // ---------------------------------------------------------------------------
  // Builder registry
  // ---------------------------------------------------------------------------

  /** An entry of the process-wide set of site builders. The kind is an explicit
      tag; builders of other kinds are known only by their kind. */
  datatype RegisteredBuilder =
    | ExecutionCourseBuilder(builder: ExecutionCourseSiteBuilder)
    | OtherBuilder(kind: string)

  /** The platform root that owns the set of site builders. */
  class Bennu {
    var siteBuilders: set<RegisteredBuilder>

    /** At most one execution-course builder is registered. */
    predicate Valid()
      reads this
    {
      forall a, b :: a in siteBuilders && b in siteBuilders && a.ExecutionCourseBuilder? && b.ExecutionCourseBuilder? ==> a == b
    }

    /** A platform whose only builders are ones of other kinds. */
    constructor (otherKinds: set<string>)
      ensures Valid()
      ensures siteBuilders == set k | k in otherKinds :: OtherBuilder(k)
    {
      siteBuilders := set k | k in otherKinds :: OtherBuilder(k);
    }
  }

  class ExecutionCourseSiteBuilder {
    var slug: string

    /** Construction registers the new builder in the platform's set. */
    constructor (bennu: Bennu)
      requires bennu.Valid()
      requires forall x :: ExecutionCourseBuilder(x) !in bennu.siteBuilders
      modifies bennu
      ensures bennu.Valid()
      ensures slug == BuilderSlug
      ensures bennu.siteBuilders == old(bennu.siteBuilders) + {ExecutionCourseBuilder(this)}
    {
      slug := BuilderSlug;
      new;
      bennu.siteBuilders := bennu.siteBuilders + {ExecutionCourseBuilder(this)};
    }

    /** The registered execution-course builder; when there is none yet, a new one
        that has registered itself. */
    static method GetInstance(bennu: Bennu) returns (b: ExecutionCourseSiteBuilder)
      requires bennu.Valid()
      modifies bennu
      ensures bennu.Valid()
      ensures ExecutionCourseBuilder(b) in bennu.siteBuilders
      ensures forall x :: ExecutionCourseBuilder(x) in bennu.siteBuilders ==> x == b
      ensures (exists x :: ExecutionCourseBuilder(x) in old(bennu.siteBuilders)) ==>
        ExecutionCourseBuilder(b) in old(bennu.siteBuilders) && bennu.siteBuilders == old(bennu.siteBuilders)
      ensures (forall x :: ExecutionCourseBuilder(x) !in old(bennu.siteBuilders)) ==>
        fresh(b) && b.slug == BuilderSlug && bennu.siteBuilders == old(bennu.siteBuilders) + {ExecutionCourseBuilder(b)}
    {
      if r :| r in bennu.siteBuilders && r.ExecutionCourseBuilder? {
        b := r.builder;
      } else {
        b := new ExecutionCourseSiteBuilder(bennu);
      }
    }

    /** Builds the site of `course`, with `author` as the creator of its pages. */
    method Create(course: ExecutionCourse, author: User) returns (site: Site)
      ensures fresh(site)
      ensures site.State() == Scaffold(course, author)
      ensures site.Valid()
    {
      var name := course.name;
      site := new Site(name, GetObjectives(course).GetOr(name));
      site.SetSlug(FormatSlugForExecutionCourse(course));

      var courseMembersGroup := CourseMembersGroup(course);
      var initialPage := Furnish(site, author, courseMembersGroup);

      site.SetInitialPage(initialPage);
      site.SetExecutionCourse(course);
      ScaffoldWellFormed(course, author);
    }

    /** The menus, categories, components and pages `Create` gives a new site, in
        the order it makes them; `courseMembersGroup` restricts "groupings" and "marks". */
    static method Furnish(site: Site, author: User, courseMembersGroup: Group) returns (initialPage: nat)
      requires site.menus == [] && site.categories == [] && site.components == [] && site.pages == []
      modifies site`menus, site`systemMenu, site`categories, site`components, site`pages
      ensures site.menus == ScaffoldMenus && site.systemMenu == Some(0)
      ensures site.categories == [SummaryCategory, AnnouncementCategory]
      ensures site.components == ScaffoldComponents
      ensures site.pages == ScaffoldPages(author, courseMembersGroup)
      ensures initialPage == 0
    {
      var menu := CreateMenus(site);

      var summariesComponent, announcementsComponent := CreateCategoryListings(site);
      var referencesComponent, evaluationMethodsComponent;
      referencesComponent, evaluationMethodsComponent, initialPage :=
        CreateInitialPage(site, menu, author, announcementsComponent);

      CreateTeachingPages(site, menu, author, courseMembersGroup, referencesComponent, evaluationMethodsComponent);
      CreateProgramPages(site, menu, author, summariesComponent, announcementsComponent);
      CreateCompetencePages(site, menu, author);
      CreateMarksAndViewPages(site, menu, author, courseMembersGroup);
    }

    /** The system menu (order 0, privileged, made the site's system menu) and the
        extra menu (order 1, left unprivileged). */
    static method CreateMenus(site: Site) returns (menu: nat)
      requires site.menus == []
      modifies site`menus, site`systemMenu
      ensures menu == 0
      ensures site.menus == ScaffoldMenus
      ensures site.systemMenu == Some(0)
    {
      menu := site.AddMenu(MenuTitle);
      site.SetMenuPrivileged(menu, true);
      site.SetMenuOrder(menu, 0);

      site.SetSystemMenu(menu);

      var extraPages := site.AddMenu(ExtraMenuTitle);
      site.SetMenuOrder(extraPages, 1);
    }

    /** The "summary" and "announcement" categories, which the site does not have
        yet, and a post listing for each. */
    static method CreateCategoryListings(site: Site) returns (summariesComponent: Component, announcementsComponent: Component)
      requires site.categories == []
      modifies site`categories, site`components
      ensures site.categories == [SummaryCategory, AnnouncementCategory]
      ensures summariesComponent == Listing(|old(site.components)|, SummaryCategory)
      ensures announcementsComponent == Listing(|old(site.components)| + 1, AnnouncementCategory)
      ensures site.components == old(site.components) + [summariesComponent, announcementsComponent]
    {
      var summariesCategory := site.GetOrCreateCategoryForSlug("summary", SummariesTitle);
      var announcementsCategory := site.GetOrCreateCategoryForSlug("announcement", AnnouncementsTitle);

      summariesComponent := site.AddComponent(ListCategoryPosts(summariesCategory));
      announcementsComponent := site.AddComponent(ListCategoryPosts(announcementsCategory));
    }

    /** The components made once and used by name, and the initial page in `menu`
        hosting the home component and the announcements listing. */
    static method CreateInitialPage(site: Site, menu: nat, author: User, announcementsComponent: Component)
      returns (referencesComponent: Component, evaluationMethodsComponent: Component, initialPage: nat)
      requires menu < |site.menus|
      modifies site`components, site`pages
      ensures site.components == old(site.components) + SharedComponents(|old(site.components)|)
      ensures referencesComponent == site.components[|old(site.components)|]
      ensures evaluationMethodsComponent == site.components[|old(site.components)| + 1]
      ensures site.pages == old(site.pages) + [InitialPageOf(menu, author, site.components[|old(site.components)| + 2], announcementsComponent)]
      ensures initialPage == |old(site.pages)|
    {
      referencesComponent := site.AddComponent(ForType(BibliographicReferencesComponent));
      evaluationMethodsComponent := site.AddComponent(ForType(EvaluationMethodsComponent));
      var homeComponent := site.AddComponent(ForType(InitialPageComponent));

      initialPage := site.CreatePage(Some(menu), InitialPageTitle, true, "firstPage", author,
                                     [homeComponent, announcementsComponent]);
    }

    /** The pages of `menu` from "groupings" to "evaluationMethods"; "groupings" is
        restricted to `courseMembersGroup`. */
    static method CreateTeachingPages(site: Site, menu: nat, author: User, courseMembersGroup: Group,
                                      referencesComponent: Component, evaluationMethodsComponent: Component)
      requires menu < |site.menus|
      modifies site`components, site`pages
      ensures site.components == old(site.components) + TeachingPageComponents(|old(site.components)|)
      ensures site.pages == old(site.pages) +
        TeachingPages(menu, author, courseMembersGroup, |old(site.components)|, referencesComponent, evaluationMethodsComponent)
    {
      var component := site.AddComponent(ForType(GroupsComponent));
      var groups := site.CreatePage(Some(menu), GroupsTitle, true, "groupings", author, [component]);
      site.SetCanViewGroup(groups, courseMembersGroup);
      var page;
      component := site.AddComponent(ForType(EvaluationsComponent));
      page := site.CreatePage(Some(menu), EvaluationsTitle, true, "evaluations", author, [component]);
      page := site.CreatePage(Some(menu), ReferencesTitle, true, "bibliographicReferences", author, [referencesComponent]);
      component := site.AddComponent(ForType(ScheduleComponent));
      page := site.CreatePage(Some(menu), ScheduleTitle, true, "calendarEvents", author, [component]);
      page := site.CreatePage(Some(menu), EvaluationMethodTitle, true, "evaluationMethods", author, [evaluationMethodsComponent]);
    }

    /** The pages of `menu` from "objectives" to the summaries listing. */
    static method CreateProgramPages(site: Site, menu: nat, author: User,
                                     summariesComponent: Component, announcementsComponent: Component)
      requires menu < |site.menus|
      modifies site`components, site`pages
      ensures site.components == old(site.components) + ProgramPageComponents(|old(site.components)|)
      ensures site.pages == old(site.pages) +
        ProgramPages(menu, author, |old(site.components)|, summariesComponent, announcementsComponent)
    {
      var page;
      var component := site.AddComponent(ForType(ObjectivesComponent));
      page := site.CreatePage(Some(menu), ObjectivesTitle, true, "objectives", author, [component]);
      component := site.AddComponent(ForType(LessonPlanComponent));
      page := site.CreatePage(Some(menu), LessonPlanTitle, true, "lessonPlan", author, [component]);
      component := site.AddComponent(ForType(ObjectivesComponent));
      page := site.CreatePage(Some(menu), ProgramTitle, true, "program", author, [component]);
      component := site.AddComponent(ForType(ExecutionCourseComponent));
      page := site.CreatePage(Some(menu), ShiftsTitle, true, "shifts", author, [component]);
      page := site.CreatePage(Some(menu), AnnouncementsTitle, true, "category", author, [announcementsComponent]);
      page := site.CreatePage(Some(menu), SummariesTitle, true, "category", author, [summariesComponent]);
    }

    /** The pages of `menu` from "prerequisites" to "ethicalPrinciples", each hosting
        an objectives component of its own. */
    static method CreateCompetencePages(site: Site, menu: nat, author: User)
      requires menu < |site.menus|
      modifies site`components, site`pages
      ensures site.components == old(site.components) + CompetencePageComponents(|old(site.components)|)
      ensures site.pages == old(site.pages) + CompetencePages(menu, author, |old(site.components)|)
    {
      var page;
      var component := site.AddComponent(ForType(ObjectivesComponent));
      page := site.CreatePage(Some(menu), PrerequisitesTitle, true, "prerequisites", author, [component]);
      component := site.AddComponent(ForType(ObjectivesComponent));
      page := site.CreatePage(Some(menu), LaboratorialComponentTitle, true, "laboratorialComponent", author, [component]);
      component := site.AddComponent(ForType(ObjectivesComponent));
      page := site.CreatePage(Some(menu), ProgrammingAndComputingComponentTitle, true, "programmingAndComputingComponent", author, [component]);
      component := site.AddComponent(ForType(ObjectivesComponent));
      page := site.CreatePage(Some(menu), CrossCompetenceComponentTitle, true, "crossCompetenceComponent", author, [component]);
      component := site.AddComponent(ForType(ObjectivesComponent));
      page := site.CreatePage(Some(menu), EthicalPrinciplesTitle, true, "ethicalPrinciples", author, [component]);
    }

    /** The "marks" page of `menu`, restricted to `courseMembersGroup`, and the post
        view, in no menu. */
    static method CreateMarksAndViewPages(site: Site, menu: nat, author: User, courseMembersGroup: Group)
      requires menu < |site.menus|
      modifies site`components, site`pages
      ensures site.components == old(site.components) + MarksAndViewComponents(|old(site.components)|)
      ensures site.pages == old(site.pages) + MarksAndViewPages(menu, author, courseMembersGroup, |old(site.components)|)
    {
      var component := site.AddComponent(ForType(MarksComponent));
      var marks := site.CreatePage(Some(menu), MarksTitle, true, "marks", author, [component]);
      site.SetCanViewGroup(marks, courseMembersGroup);

      component := site.AddComponent(ForType(ViewPostComponent));
      var view := site.CreatePage(None, ViewPostTitle, true, "view", author, [component]);
    }
  }

  /** Repeated lookups observe the same builder. */
  method GetInstanceTwice(bennu: Bennu) returns (first: ExecutionCourseSiteBuilder, second: ExecutionCourseSiteBuilder)
    requires bennu.Valid()
    modifies bennu
    ensures bennu.Valid()
    ensures first == second
    ensures forall x :: ExecutionCourseBuilder(x) in bennu.siteBuilders ==> x == first
  {
    first := ExecutionCourseSiteBuilder.GetInstance(bennu);
    second := ExecutionCourseSiteBuilder.GetInstance(bennu);
  }

  // ---------------------------------------------------------------------------
  // Slug
  // ---------------------------------------------------------------------------

  /** The site slug: the course code and external id joined by "-". */
  function FormatSlugForExecutionCourse(course: ExecutionCourse): (r: string)
    ensures |r| == |course.code| + 1 + |course.externalId|
    ensures r[..|course.code|] == course.code && r[|course.code|] == '-' && r[|course.code| + 1..] == course.externalId
  {
    course.code + "-" + course.externalId
  }

  /** The position of the first "-" in `s`, if any. */
  function FirstDash(s: string): (r: Option<nat>)
    ensures r.Some? ==> r.value < |s| && s[r.value] == '-' && '-' !in s[..r.value]
    ensures r.None? ==> '-' !in s
  {
    if |s| == 0 then None
    else if s[0] == '-' then Some(0)
    else match FirstDash(s[1..])
      case None => None
      case Some(i) => Some(i + 1)
  }

  /** Splits a slug at its first "-" into a code and an external id. */
  function SplitSlug(s: string): Option<(string, string)> {
    match FirstDash(s)
    case None => None
    case Some(i) => Some((s[..i], s[i + 1..]))
  }

  /** The first "-" of `a + "-" + b` is the joining one when `a` has none. */
  lemma {:induction false} FirstDashOfJoin(a: string, b: string)
    requires '-' !in a
    ensures FirstDash(a + "-" + b) == Some(|a|)
  {
    if |a| > 0 {
      assert (a + "-" + b)[1..] == a[1..] + "-" + b;
      FirstDashOfJoin(a[1..], b);
    }
  }

  /** A slug splits back into the code and external id it was made of, provided
      the code has no "-" (the external id may). */
  lemma SplitSlugInvertsFormat(course: ExecutionCourse)
    requires '-' !in course.code
    ensures SplitSlug(FormatSlugForExecutionCourse(course)) == Some((course.code, course.externalId))
  {
    var s := FormatSlugForExecutionCourse(course);
    var n := |course.code|;
    FirstDashOfJoin(course.code, course.externalId);
    assert s[..n] == course.code;
    assert s[n + 1..] == course.externalId;
  }

  /** Distinct code/id pairs give distinct slugs when neither code contains "-". */
  lemma SlugIsInjective(c1: ExecutionCourse, c2: ExecutionCourse)
    requires '-' !in c1.code && '-' !in c2.code
    requires FormatSlugForExecutionCourse(c1) == FormatSlugForExecutionCourse(c2)
    ensures c1.code == c2.code && c1.externalId == c2.externalId
  {
    SplitSlugInvertsFormat(c1);
    SplitSlugInvertsFormat(c2);
  }

  /** Without that proviso the slug does not determine the pair: codes "A-B" and
      "A" with ids "C" and "B-C" both give "A-B-C". */
  lemma SlugCollision(name: LocalizedText, period: ExecutionPeriod, ccs: seq<CompetenceCourse>)
    ensures var c1 := ExecutionCourse("A-B", "C", name, period, ccs);
            var c2 := ExecutionCourse("A", "B-C", name, period, ccs);
            c1.code != c2.code && FormatSlugForExecutionCourse(c1) == FormatSlugForExecutionCourse(c2)
  {
  }

  // ---------------------------------------------------------------------------
  // Description
  // ---------------------------------------------------------------------------

  /** A competence course's objectives for a period; None stands for null. */
  function ObjectivesFor(cc: CompetenceCourse, period: ExecutionPeriod): Option<LocalizedText> {
    if period in cc.objectives then Some(cc.objectives[period]) else None
  }

  /** The non-null objectives texts of `ccs` for `period`, in enumeration order. */
  function PresentObjectives(ccs: seq<CompetenceCourse>, period: ExecutionPeriod): (r: seq<LocalizedText>)
    ensures |r| <= |ccs|
    ensures forall k :: 0 <= k < |r| ==> exists i :: 0 <= i < |ccs| && ObjectivesFor(ccs[i], period) == Some(r[k])
  {
    if |ccs| == 0 then []
    else match ObjectivesFor(ccs[0], period)
      case Some(t) => [t] + PresentObjectives(ccs[1..], period)
      case None => PresentObjectives(ccs[1..], period)
  }

  /** Every objectives text a competence course has for the period is kept by the filter. */
  lemma {:induction false} PresentObjectivesComplete(ccs: seq<CompetenceCourse>, period: ExecutionPeriod, i: nat)
    requires i < |ccs| && ObjectivesFor(ccs[i], period).Some?
    ensures ObjectivesFor(ccs[i], period).value in PresentObjectives(ccs, period)
  {
    if i > 0 {
      assert ccs[i] == ccs[1..][i - 1];
      PresentObjectivesComplete(ccs[1..], period, i - 1);
    }
  }

  /** The head of the present objectives is the objectives text of the first
      competence course that has one; there is none exactly when no course has one. */
  lemma {:induction false} FirstPresentObjectives(ccs: seq<CompetenceCourse>, period: ExecutionPeriod)
    ensures |PresentObjectives(ccs, period)| == 0 <==>
      forall i :: 0 <= i < |ccs| ==> ObjectivesFor(ccs[i], period).None?
    ensures |PresentObjectives(ccs, period)| > 0 ==>
      exists i :: 0 <= i < |ccs| && ObjectivesFor(ccs[i], period) == Some(PresentObjectives(ccs, period)[0])
        && forall j :: 0 <= j < i ==> ObjectivesFor(ccs[j], period).None?
  {
    if |ccs| > 0 && ObjectivesFor(ccs[0], period).None? {
      var tail := ccs[1..];
      FirstPresentObjectives(tail, period);
      assert forall i :: 1 <= i < |ccs| ==> ccs[i] == tail[i - 1];
      if |PresentObjectives(tail, period)| > 0 {
        var i :| 0 <= i < |tail| && ObjectivesFor(tail[i], period) == Some(PresentObjectives(tail, period)[0])
          && forall j :: 0 <= j < i ==> ObjectivesFor(tail[j], period).None?;
        assert ObjectivesFor(ccs[i + 1], period) == Some(PresentObjectives(ccs, period)[0]);
      }
    }
  }

  /** The objectives of the course: the first non-null objectives text among its
      competence courses, in enumeration order, for the course's period. */
  function GetObjectives(course: ExecutionCourse): (r: Option<LocalizedText>)
    ensures r.None? <==>
      forall i :: 0 <= i < |course.competenceCourses| ==> ObjectivesFor(course.competenceCourses[i], course.period).None?
    ensures r.Some? ==>
      exists i :: 0 <= i < |course.competenceCourses| && ObjectivesFor(course.competenceCourses[i], course.period) == r
        && forall j :: 0 <= j < i ==> ObjectivesFor(course.competenceCourses[j], course.period).None?
  {
    var present := PresentObjectives(course.competenceCourses, course.period);
    FirstPresentObjectives(course.competenceCourses, course.period);
    if |present| == 0 then None else Some(present[0])
  }

  /** The site description: the course objectives, or the course name when it has none. */
  function SiteDescription(course: ExecutionCourse): (r: LocalizedText)
    ensures r == course.name ||
      exists i :: 0 <= i < |course.competenceCourses| && ObjectivesFor(course.competenceCourses[i], course.period) == Some(r)
  {
    GetObjectives(course).GetOr(course.name)
  }

  /** When competence course `i` is the first with objectives for the course's
      period, the description is its objectives text. */
  lemma DescriptionIsFirstObjectives(course: ExecutionCourse, i: nat)
    requires i < |course.competenceCourses|
    requires ObjectivesFor(course.competenceCourses[i], course.period).Some?
    requires forall j :: 0 <= j < i ==> ObjectivesFor(course.competenceCourses[j], course.period).None?
    ensures SiteDescription(course) == ObjectivesFor(course.competenceCourses[i], course.period).value
  {
  }

  /** When no competence course has objectives for the period, the description is the course name. */
  lemma DescriptionFallsBackToName(course: ExecutionCourse)
    requires forall i :: 0 <= i < |course.competenceCourses| ==> ObjectivesFor(course.competenceCourses[i], course.period).None?
    ensures SiteDescription(course) == course.name
  {
  }

  // ---------------------------------------------------------------------------
  // The finished site
  // ---------------------------------------------------------------------------

  /** A published page of `menu` by `author` hosting one component. */
  function MenuPage(menu: nat, title: Title, slug: string, author: User, component: Component, viewers: Group): Page {
    Page(title, Some(menu), true, slug, author, [component], viewers)
  }

  const SummaryCategory := Category("summary", SummariesTitle)
  const AnnouncementCategory := Category("announcement", AnnouncementsTitle)

  /** Component instance number `id` listing the posts of `category`. */
  function Listing(id: nat, category: Category): Component {
    Component(id, ListCategoryPosts(category))
  }

  /** The bibliographic-references, evaluation-methods and home components, numbered from `base`. */
  function SharedComponents(base: nat): seq<Component> {
    [ Component(base, ForType(BibliographicReferencesComponent)),
      Component(base + 1, ForType(EvaluationMethodsComponent)),
      Component(base + 2, ForType(InitialPageComponent))]
  }

  function InitialPageOf(menu: nat, author: User, home: Component, announcements: Component): Page {
    Page(InitialPageTitle, Some(menu), true, "firstPage", author, [home, announcements], Anyone)
  }

  /** The components made for the pages from "groupings" to "evaluationMethods", numbered from `base`. */
  function TeachingPageComponents(base: nat): seq<Component> {
    [ Component(base, ForType(GroupsComponent)),
      Component(base + 1, ForType(EvaluationsComponent)),
      Component(base + 2, ForType(ScheduleComponent))]
  }

  function TeachingPages(menu: nat, author: User, members: Group, base: nat,
                         references: Component, evaluationMethods: Component): seq<Page>
  {
    var c := TeachingPageComponents(base);
    [ MenuPage(menu, GroupsTitle, "groupings", author, c[0], members),
      MenuPage(menu, EvaluationsTitle, "evaluations", author, c[1], Anyone),
      MenuPage(menu, ReferencesTitle, "bibliographicReferences", author, references, Anyone),
      MenuPage(menu, ScheduleTitle, "calendarEvents", author, c[2], Anyone),
      MenuPage(menu, EvaluationMethodTitle, "evaluationMethods", author, evaluationMethods, Anyone)]
  }

  /** The components made for the pages from "objectives" to "shifts", numbered from `base`. */
  function ProgramPageComponents(base: nat): seq<Component> {
    [ Component(base, ForType(ObjectivesComponent)),
      Component(base + 1, ForType(LessonPlanComponent)),
      Component(base + 2, ForType(ObjectivesComponent)),
      Component(base + 3, ForType(ExecutionCourseComponent))]
  }

  function ProgramPages(menu: nat, author: User, base: nat, summaries: Component, announcements: Component): seq<Page> {
    var c := ProgramPageComponents(base);
    [ MenuPage(menu, ObjectivesTitle, "objectives", author, c[0], Anyone),
      MenuPage(menu, LessonPlanTitle, "lessonPlan", author, c[1], Anyone),
      MenuPage(menu, ProgramTitle, "program", author, c[2], Anyone),
      MenuPage(menu, ShiftsTitle, "shifts", author, c[3], Anyone),
      MenuPage(menu, AnnouncementsTitle, "category", author, announcements, Anyone),
      MenuPage(menu, SummariesTitle, "category", author, summaries, Anyone)]
  }

  /** The components made for the pages from "prerequisites" to "ethicalPrinciples", numbered from `base`. */
  function CompetencePageComponents(base: nat): seq<Component> {
    [ Component(base, ForType(ObjectivesComponent)),
      Component(base + 1, ForType(ObjectivesComponent)),
      Component(base + 2, ForType(ObjectivesComponent)),
      Component(base + 3, ForType(ObjectivesComponent)),
      Component(base + 4, ForType(ObjectivesComponent))]
  }

  function CompetencePages(menu: nat, author: User, base: nat): seq<Page> {
    var c := CompetencePageComponents(base);
    [ MenuPage(menu, PrerequisitesTitle, "prerequisites", author, c[0], Anyone),
      MenuPage(menu, LaboratorialComponentTitle, "laboratorialComponent", author, c[1], Anyone),
      MenuPage(menu, ProgrammingAndComputingComponentTitle, "programmingAndComputingComponent", author, c[2], Anyone),
      MenuPage(menu, CrossCompetenceComponentTitle, "crossCompetenceComponent", author, c[3], Anyone),
      MenuPage(menu, EthicalPrinciplesTitle, "ethicalPrinciples", author, c[4], Anyone)]
  }

  /** The marks and post-view components, numbered from `base`. */
  function MarksAndViewComponents(base: nat): seq<Component> {
    [Component(base, ForType(MarksComponent)), Component(base + 1, ForType(ViewPostComponent))]
  }

  function MarksAndViewPages(menu: nat, author: User, members: Group, base: nat): seq<Page> {
    var c := MarksAndViewComponents(base);
    [ MenuPage(menu, MarksTitle, "marks", author, c[0], members),
      Page(ViewPostTitle, None, true, "view", author, [c[1]], Anyone)]
  }

  const ScaffoldMenus := [Menu(MenuTitle, 0, true), Menu(ExtraMenuTitle, 1, false)]

  /** The 19 component instances of a new course site, in the order they are made. */
  const ScaffoldComponents :=
    [Listing(0, SummaryCategory), Listing(1, AnnouncementCategory)] + SharedComponents(2)
    + TeachingPageComponents(5) + ProgramPageComponents(8) + CompetencePageComponents(12) + MarksAndViewComponents(17)

  /** The 19 pages of a new course site, in the order they are made. */
  function ScaffoldPages(author: User, members: Group): seq<Page> {
    [InitialPageOf(0, author, Component(4, ForType(InitialPageComponent)), Listing(1, AnnouncementCategory))]
    + TeachingPages(0, author, members, 5, Component(2, ForType(BibliographicReferencesComponent)),
                    Component(3, ForType(EvaluationMethodsComponent)))
    + ProgramPages(0, author, 8, Listing(0, SummaryCategory), Listing(1, AnnouncementCategory))
    + CompetencePages(0, author, 12) + MarksAndViewPages(0, author, members, 17)
  }

  /** The state of the site `Create` builds for `course`. */
  function Scaffold(course: ExecutionCourse, author: User): SiteState {
    SiteState(
      name := course.name,
      description := SiteDescription(course),
      slug := FormatSlugForExecutionCourse(course),
      menus := ScaffoldMenus,
      systemMenu := Some(0),
      categories := [SummaryCategory, AnnouncementCategory],
      components := ScaffoldComponents,
      pages := ScaffoldPages(author, CourseMembersGroup(course)),
      initialPage := Some(0),
      executionCourse := Some(course))
  }

  // ---------------------------------------------------------------------------
  // Properties of the built site
  // ---------------------------------------------------------------------------

  /** The path segments of the two pages restricted to the course members. */
  const RestrictedSlugs := {"groupings", "marks"}

  /** Every page of `ps` is published and was created by `author`. */
  ghost predicate PublishedBy(ps: seq<Page>, author: User) {
    forall i :: 0 <= i < |ps| ==> ps[i].visible && ps[i].createdBy == author
  }

  /** Every page of `ps` is placed in `menu`. */
  ghost predicate AllInMenu(ps: seq<Page>, menu: Option<nat>) {
    forall i :: 0 <= i < |ps| ==> ps[i].menu == menu
  }

  /** A page of `ps` is viewable by `members` when its path segment is a restricted
      one, and by anyone otherwise. */
  ghost predicate RestrictedExactly(ps: seq<Page>, members: Group) {
    forall i :: 0 <= i < |ps| ==> ps[i].canViewGroup == (if ps[i].slug in RestrictedSlugs then members else Anyone)
  }

  /** A new course site has 19 published pages by the author: the first 18 in the
      system menu, the last the detached post view; only "groupings" and "marks"
      are restricted, to the course members. */
  lemma ScaffoldPageLayout(course: ExecutionCourse, author: User)
    ensures var st := Scaffold(course, author);
      && |st.pages| == 19
      && (forall i :: 0 <= i < 18 ==> st.pages[i].menu == st.systemMenu)
      && st.pages[18] == Page(ViewPostTitle, None, true, "view", author, [Component(18, ForType(ViewPostComponent))], Anyone)
      && PublishedBy(st.pages, author)
      && RestrictedExactly(st.pages, CourseMembersGroup(course))
  {
  }

  /** The system menu comes first, with order 0, privileged, and is the site's
      system menu; the extra menu has order 1, is not privileged and holds no page. */
  lemma ScaffoldMenuLayout(course: ExecutionCourse, author: User)
    ensures var st := Scaffold(course, author);
      && |st.menus| == 2 && st.systemMenu == Some(0)
      && st.menus[0] == Menu(MenuTitle, 0, true)
      && st.menus[1] == Menu(ExtraMenuTitle, 1, false)
      && forall i :: 0 <= i < |st.pages| ==> st.pages[i].menu != Some(1)
  {
    ScaffoldPageLayout(course, author);
    var st := Scaffold(course, author);
    forall i | 0 <= i < |st.pages|
      ensures st.pages[i].menu != Some(1)
    {
      if i < 18 {
        assert st.pages[i].menu == Some(0);
      } else {
        assert st.pages[i] == st.pages[18];
      }
    }
  }

  /** The initial page is the first page, sits in the system menu and hosts the home
      component followed by the announcements listing; that listing instance is the
      very one the announcements page hosts, and the summaries page hosts the
      summaries listing, both under the path segment "category". */
  lemma ScaffoldInitialPage(course: ExecutionCourse, author: User)
    ensures var st := Scaffold(course, author);
      && st.initialPage == Some(0) && |st.pages| == 19
      && st.pages[0].menu == st.systemMenu
      && st.pages[0].components == [Component(4, ForType(InitialPageComponent)), Listing(1, AnnouncementCategory)]
      && st.pages[10].title == AnnouncementsTitle && st.pages[10].slug == "category"
      && st.pages[10].components == [st.pages[0].components[1]]
      && st.pages[11].title == SummariesTitle && st.pages[11].slug == "category"
      && st.pages[11].components == [Listing(0, SummaryCategory)]
  {
  }

  /** The component instances of a new course site are numbered by position, and
      the listings list the site's two categories. */
  lemma ScaffoldComponentsNumbered()
    ensures |ScaffoldComponents| == 19
    ensures forall i :: 0 <= i < |ScaffoldComponents| ==> ScaffoldComponents[i].id == i
    ensures forall i :: 0 <= i < |ScaffoldComponents| && ScaffoldComponents[i].kind.ListCategoryPosts? ==>
      ScaffoldComponents[i].kind.category in [SummaryCategory, AnnouncementCategory]
  {
  }

  /** Every component a page of a new course site hosts is one of the site's instances. */
  lemma ScaffoldPagesHostSiteComponents(author: User, members: Group)
    ensures forall i, c :: 0 <= i < |ScaffoldPages(author, members)| && c in ScaffoldPages(author, members)[i].components ==>
      c in ScaffoldComponents
  {
  }

  /** Every reference in a new course site resolves, components are numbered by
      position and its two categories have distinct slugs. */
  lemma ScaffoldWellFormed(course: ExecutionCourse, author: User)
    ensures WellFormed(Scaffold(course, author))
  {
    ScaffoldComponentsNumbered();
    ScaffoldPagesHostSiteComponents(author, CourseMembersGroup(course));
    ScaffoldPageLayout(course, author);
  }

  /** Who may view each page of a new course site: everyone, except on "groupings"
      and "marks", which only the course's teachers, its students and holders of
      the authorization to manage authorizations may view. */
  lemma PageViewers(course: ExecutionCourse, author: User, i: nat, u: User, d: Directory)
    requires i < |Scaffold(course, author).pages|
    ensures var page := Scaffold(course, author).pages[i];
      IsMember(page.canViewGroup, u, d) <==>
        (page.slug in RestrictedSlugs ==>
          (u, course) in d.teaches || (u, course) in d.attends || (u, ManageAuthorizations) in d.authorized)
  {
    ScaffoldPageLayout(course, author);
  }
}
