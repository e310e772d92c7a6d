/** The content-management substrate the builder drives: a site with its menus,
    categories, component instances and pages. Only the creation primitives and
    setters the builder calls are modelled; each appends to or updates the site's
    state. Menus and pages are referred to by their position in the site's
    sequences; a component instance carries the number it was made with, so two
    pages hold the same instance exactly when they hold equal components. */
module Cms {
  import opened Wrappers
  import opened Academic

  /** A localized title taken from a resource bundle; only the bundle and key are kept. */
  datatype Title = BundleLabel(bundle: string, key: string)

  datatype Menu = Menu(title: Title, order: int, privileged: bool)

  datatype Category = Category(slug: string, name: Title)

  /** What a component renders: a component class made by `Component.forType`, or
      the listing of the posts of one category. */
  datatype ComponentKind =
    | ForType(componentClass: string)
    | ListCategoryPosts(category: Category)

  /** A component instance. Instances are numbered as they are made, so two pages
      host the same instance exactly when they hold equal components. */
  datatype Component = Component(id: nat, kind: ComponentKind)

  /** A page: its title, the menu it is placed in (none for a detached page), whether
      it is published, its path segment, its creator, the component instances it
      hosts (by position) and the group allowed to view it. */
  datatype Page = Page(
    title: Title,
    menu: Option<nat>,
    visible: bool,
    slug: string,
    createdBy: User,
    components: seq<Component>,
    canViewGroup: Group)

  /** Everything a site holds, as one value. */
  datatype SiteState = SiteState(
    name: LocalizedText,
    description: LocalizedText,
    slug: string,
    menus: seq<Menu>,
    systemMenu: Option<nat>,
    categories: seq<Category>,
    components: seq<Component>,
    pages: seq<Page>,
    initialPage: Option<nat>,
    executionCourse: Option<ExecutionCourse>)

  /** Every reference inside a site points at something the site holds, components
      are numbered by their position, and no two categories share a slug. */
  predicate WellFormed(st: SiteState) {
    && (st.systemMenu.Some? ==> st.systemMenu.value < |st.menus|)
    && (st.initialPage.Some? ==> st.initialPage.value < |st.pages|)
    && (forall i :: 0 <= i < |st.components| ==> st.components[i].id == i)
    && (forall i :: 0 <= i < |st.components| && st.components[i].kind.ListCategoryPosts? ==>
          st.components[i].kind.category in st.categories)
    && (forall i :: 0 <= i < |st.pages| && st.pages[i].menu.Some? ==> st.pages[i].menu.value < |st.menus|)
    && (forall i, c :: 0 <= i < |st.pages| && c in st.pages[i].components ==> c in st.components)
    && (forall i, j :: 0 <= i < j < |st.categories| ==> st.categories[i].slug != st.categories[j].slug)
  }

  /** The position of the category with slug `slug`, if there is one. */
  function FindCategory(categories: seq<Category>, slug: string): (r: Option<nat>)
    ensures r.Some? ==> r.value < |categories| && categories[r.value].slug == slug
    ensures r.None? <==> forall i :: 0 <= i < |categories| ==> categories[i].slug != slug
  {
    if |categories| == 0 then None
    else if categories[|categories| - 1].slug == slug then Some(|categories| - 1)
    else FindCategory(categories[..|categories| - 1], slug)
  }

  class Site {
    var name: LocalizedText
    var description: LocalizedText
    var slug: string
    var menus: seq<Menu>
    var systemMenu: Option<nat>
    var categories: seq<Category>
    var components: seq<Component>
    var pages: seq<Page>
    var initialPage: Option<nat>
    var executionCourse: Option<ExecutionCourse>

    function State(): SiteState
      reads this
    {
      SiteState(name, description, slug, menus, systemMenu, categories, components, pages, initialPage, executionCourse)
    }

    /** The site invariant: every reference resolves (see `WellFormed`). A new site
        has it, and the lemmas after this class show that each primitive keeps it
        when its own references resolve. */
    predicate Valid()
      reads this
    {
      WellFormed(State())
    }

    /** A new, empty site with the given name and description. */
    constructor (name: LocalizedText, description: LocalizedText)
      ensures State() == SiteState(name, description, "", [], None, [], [], [], None, None)
      ensures Valid()
    {
      this.name := name;
      this.description := description;
      slug := "";
      menus := [];
      systemMenu := None;
      categories := [];
      components := [];
      pages := [];
      initialPage := None;
      executionCourse := None;
    }

    method SetSlug(s: string)
      modifies this`slug
      ensures slug == s
    {
      slug := s;
    }

    /** `new Menu(site, title)`: a new menu at the end of the site's menus, ordered
        after the existing ones and not privileged. */
    method AddMenu(title: Title) returns (m: nat)
      modifies this`menus
      ensures m == |old(menus)|
      ensures menus == old(menus) + [Menu(title, |old(menus)|, false)]
    {
      m := |menus|;
      menus := menus + [Menu(title, m, false)];
    }

    method SetMenuPrivileged(m: nat, privileged: bool)
      requires m < |menus|
      modifies this`menus
      ensures menus == old(menus)[m := old(menus)[m].(privileged := privileged)]
    {
      menus := menus[m := menus[m].(privileged := privileged)];
    }

    method SetMenuOrder(m: nat, order: int)
      requires m < |menus|
      modifies this`menus
      ensures menus == old(menus)[m := old(menus)[m].(order := order)]
    {
      menus := menus[m := menus[m].(order := order)];
    }

    method SetSystemMenu(m: nat)
      requires m < |menus|
      modifies this`systemMenu
      ensures systemMenu == Some(m)
    {
      systemMenu := Some(m);
    }

    /** The category with the given slug; one is created with `name` only when the
        site has none with that slug. */
    method GetOrCreateCategoryForSlug(slug: string, name: Title) returns (c: Category)
      modifies this`categories
      ensures c in categories && c.slug == slug
      ensures (exists i :: 0 <= i < |old(categories)| && old(categories)[i].slug == slug) ==>
        categories == old(categories)
      ensures (forall i :: 0 <= i < |old(categories)| ==> old(categories)[i].slug != slug) ==>
        c == Category(slug, name) && categories == old(categories) + [c]
    {
      var found := FindCategory(categories, slug);
      if found.Some? {
        c := categories[found.value];
      } else {
        c := Category(slug, name);
        categories := categories + [c];
      }
    }

    /** A new component instance (`Component.forType`, `new ListCategoryPosts`),
        numbered after those already made. */
    method AddComponent(kind: ComponentKind) returns (c: Component)
      modifies this`components
      ensures c == Component(|old(components)|, kind)
      ensures components == old(components) + [c]
    {
      c := Component(|components|, kind);
      components := components + [c];
    }

    /** `Page.create`: a new page at the end of the site's pages, placed in `menu`
        when one is given, viewable by anyone. */
    method CreatePage(menu: Option<nat>, title: Title, visible: bool, slug: string, createdBy: User,
                      hosted: seq<Component>) returns (p: nat)
      requires menu.Some? ==> menu.value < |menus|
      modifies this`pages
      ensures p == |old(pages)|
      ensures pages == old(pages) + [Page(title, menu, visible, slug, createdBy, hosted, Anyone)]
    {
      p := |pages|;
      pages := pages + [Page(title, menu, visible, slug, createdBy, hosted, Anyone)];
    }

    method SetCanViewGroup(p: nat, g: Group)
      requires p < |pages|
      modifies this`pages
      ensures pages == old(pages)[p := old(pages)[p].(canViewGroup := g)]
    {
      pages := pages[p := pages[p].(canViewGroup := g)];
    }

    method SetInitialPage(p: nat)
      requires p < |pages|
      modifies this`initialPage
      ensures initialPage == Some(p)
    {
      initialPage := Some(p);
    }

    method SetExecutionCourse(course: ExecutionCourse)
      modifies this`executionCourse
      ensures executionCourse == Some(course)
    {
      executionCourse := Some(course);
    }
  }

  // ---------------------------------------------------------------------------
  // Each primitive keeps a site well formed
  // ---------------------------------------------------------------------------

  /** `AddMenu`, `SetMenuPrivileged` and `SetMenuOrder` only add or rewrite menus. */
  lemma WellFormedAfterMenuChange(st: SiteState, menus: seq<Menu>)
    requires WellFormed(st)
    requires |menus| >= |st.menus|
    ensures WellFormed(st.(menus := menus))
  {
  }

  lemma WellFormedAfterSetSystemMenu(st: SiteState, m: nat)
    requires WellFormed(st) && m < |st.menus|
    ensures WellFormed(st.(systemMenu := Some(m)))
  {
  }

  /** `GetOrCreateCategoryForSlug` adds a category only under a slug the site lacks. */
  lemma WellFormedAfterNewCategory(st: SiteState, c: Category)
    requires WellFormed(st)
    requires forall i :: 0 <= i < |st.categories| ==> st.categories[i].slug != c.slug
    ensures WellFormed(st.(categories := st.categories + [c]))
  {
    var cs := st.categories + [c];
    forall i, j | 0 <= i < j < |cs|
      ensures cs[i].slug != cs[j].slug
    {
      if j == |st.categories| {
        assert cs[i] == st.categories[i];
      } else {
        assert cs[i] == st.categories[i] && cs[j] == st.categories[j];
      }
    }
  }

  /** `AddComponent` keeps the site well formed when a listing lists one of its categories. */
  lemma WellFormedAfterAddComponent(st: SiteState, kind: ComponentKind)
    requires WellFormed(st)
    requires kind.ListCategoryPosts? ==> kind.category in st.categories
    ensures WellFormed(st.(components := st.components + [Component(|st.components|, kind)]))
  {
    var cs := st.components + [Component(|st.components|, kind)];
    forall i, c | 0 <= i < |st.pages| && c in st.pages[i].components
      ensures c in cs
    {
      assert c in st.components;
    }
  }

  /** `CreatePage` keeps the site well formed when the page's menu and hosted
      instances belong to the site. */
  lemma WellFormedAfterCreatePage(st: SiteState, menu: Option<nat>, title: Title, visible: bool, slug: string,
                                  createdBy: User, hosted: seq<Component>)
    requires WellFormed(st)
    requires menu.Some? ==> menu.value < |st.menus|
    requires forall c :: c in hosted ==> c in st.components
    ensures WellFormed(st.(pages := st.pages + [Page(title, menu, visible, slug, createdBy, hosted, Anyone)]))
  {
    var ps := st.pages + [Page(title, menu, visible, slug, createdBy, hosted, Anyone)];
    forall i | 0 <= i < |ps|
      ensures ps[i].menu.Some? ==> ps[i].menu.value < |st.menus|
      ensures forall c :: c in ps[i].components ==> c in st.components
    {
      if i < |st.pages| {
        assert ps[i] == st.pages[i];
      }
    }
  }

  lemma WellFormedAfterSetCanViewGroup(st: SiteState, p: nat, g: Group)
    requires WellFormed(st) && p < |st.pages|
    ensures WellFormed(st.(pages := st.pages[p := st.pages[p].(canViewGroup := g)]))
  {
    var ps := st.pages[p := st.pages[p].(canViewGroup := g)];
    forall i | 0 <= i < |ps|
      ensures ps[i].menu == st.pages[i].menu && ps[i].components == st.pages[i].components
    {
    }
  }

  lemma WellFormedAfterSetInitialPage(st: SiteState, p: nat)
    requires WellFormed(st) && p < |st.pages|
    ensures WellFormed(st.(initialPage := Some(p)))
  {
  }
}
