/** The two-level navigation of the site as a state machine: a home mode with
    three sub-tabs, a project mode with the sub-tabs of `ProjectTabs`, and the
    open/closed state of the "Projects" dropdown. Each handler is one atomic
    transition from the state before the click to the state after it. */
module Navigation {
  import opened Optional
  import opened Tabs

  datatype Mode = Home | Project

  /** The five pieces of component state of `App`. */
  datatype NavState = NavState(
    mode: Mode,
    homeTab: string,
    activeProject: Option<string>,
    projectTab: string,
    showProjectsMenu: bool)

  /** A project is active exactly while the project mode is shown. */
  predicate Consistent(s: NavState) {
    s.activeProject.Some? <==> s.mode == Project
  }

  /** The state `App` starts in. */
  function Initial(): (s: NavState)
    ensures s.mode == Home && s.homeTab == "about" && s.activeProject.None?
    ensures s.projectTab == "introduction" && !s.showProjectsMenu
    ensures Consistent(s)
  {
    NavState(Home, "about", None, "introduction", false)
  }

  /** `openProject(id)`: show project `id` at its introduction and close the
      dropdown; the home sub-tab is remembered. */
  function OpenProject(s: NavState, id: string): (r: NavState)
    ensures r.activeProject == Some(id) && r.projectTab == "introduction"
    ensures r.mode == Project && !r.showProjectsMenu
    ensures r.homeTab == s.homeTab
    ensures Consistent(r)
  {
    s.(activeProject := Some(id), projectTab := "introduction", mode := Project,
       showProjectsMenu := false)
  }

  /** `goHome(tab = "about")`: show the home sub-tab `tab` (the about page
      when no tab is passed) and drop the active project; the project sub-tab
      and the dropdown are left as they were. */
  function GoHome(s: NavState, tab: Option<string>): (r: NavState)
    ensures r.mode == Home && r.activeProject.None?
    ensures tab.Some? ==> r.homeTab == tab.value
    ensures tab.None? ==> r.homeTab == "about"
    ensures r.projectTab == s.projectTab && r.showProjectsMenu == s.showProjectsMenu
    ensures Consistent(r)
  {
    var t := match tab case Some(t) => t case None => "about";
    s.(mode := Home, homeTab := t, activeProject := None)
  }

  /** The setter `setProjectTab`, which only changes the project sub-tab. */
  function SetProjectTab(s: NavState, t: string): (r: NavState)
    ensures r.projectTab == t
    ensures r.mode == s.mode && r.homeTab == s.homeTab
    ensures r.activeProject == s.activeProject && r.showProjectsMenu == s.showProjectsMenu
    ensures Consistent(r) <==> Consistent(s)
  {
    s.(projectTab := t)
  }

  /** The "Projects ▾" button. It always toggles the dropdown. Outside the
      project mode it also selects the projects home sub-tab. */
  function ClickProjectsButton(s: NavState): (r: NavState)
    ensures r.showProjectsMenu == !s.showProjectsMenu
    ensures r.activeProject == s.activeProject && r.projectTab == s.projectTab
    ensures s.mode == Project ==> r.mode == Project && r.homeTab == s.homeTab
    ensures s.mode != Project ==> r.mode == Home && r.homeTab == "projects"
    ensures Consistent(r) <==> Consistent(s)
  {
    if s.mode == Project then
      s.(showProjectsMenu := !s.showProjectsMenu)
    else
      s.(showProjectsMenu := !s.showProjectsMenu, homeTab := "projects", mode := Home)
  }

  /** The document mousedown listener of `useOutsideClick`. `attached` says
      whether the dropdown's container element exists and `inside` whether
      the target lies inside it. Only a mousedown outside an existing
      container closes the dropdown. */
  function OutsideMouseDown(s: NavState, attached: bool, inside: bool): (r: NavState)
    ensures attached && !inside ==> !r.showProjectsMenu
    ensures !attached || inside ==> r == s
    ensures r.mode == s.mode && r.homeTab == s.homeTab
    ensures r.activeProject == s.activeProject && r.projectTab == s.projectTab
    ensures Consistent(r) <==> Consistent(s)
  {
    if !attached || inside then s else s.(showProjectsMenu := false)
  }

  // ---------------------------------------------------------------------
  // Runs of user actions
  // ---------------------------------------------------------------------

  /** A user action `App` handles. */
  datatype Event =
    | OpenProjectClick(id: string)
    | GoHomeClick(homeTab: Option<string>)
    | ProjectTabClick(tab: string)
    | ProjectsButtonClick
    | MouseDown(attached: bool, inside: bool)

  function Step(s: NavState, e: Event): (r: NavState) {
    match e
    case OpenProjectClick(id) => OpenProject(s, id)
    case GoHomeClick(tab) => GoHome(s, tab)
    case ProjectTabClick(t) => SetProjectTab(s, t)
    case ProjectsButtonClick => ClickProjectsButton(s)
    case MouseDown(attached, inside) => OutsideMouseDown(s, attached, inside)
  }

  /** The state after handling `events` in order. */
  function Run(s: NavState, events: seq<Event>): (r: NavState)
    decreases |events|
  {
    if events == [] then s else Run(Step(s, events[0]), events[1..])
  }

  /** Every transition keeps a project active exactly in the project mode. */
  lemma {:induction false} RunKeepsConsistent(s: NavState, events: seq<Event>)
    requires Consistent(s)
    ensures Consistent(Run(s, events))
    decreases |events|
  {
    if events != [] {
      RunKeepsConsistent(Step(s, events[0]), events[1..]);
    }
  }

  /** Every state reachable from the start has a project active exactly in
      the project mode. */
  lemma ReachableConsistent(events: seq<Event>)
    ensures Consistent(Run(Initial(), events))
  {
    RunKeepsConsistent(Initial(), events);
  }

  // ---------------------------------------------------------------------
  // What the page can actually send, and what it then shows
  // ---------------------------------------------------------------------

  /** The arguments the page's buttons pass: `goHome` always gets one of the
      three home sub-tabs and `setProjectTab` an identifier of `ProjectTabs`. */
  predicate FromPage(e: Event) {
    match e
    case GoHomeClick(tab) => tab.Some? && tab.value in HomeTabs
    case ProjectTabClick(t) => IsProjectTab(t)
    case _ => true
  }

  predicate AllFromPage(events: seq<Event>) {
    forall e :: e in events ==> FromPage(e)
  }

  /** Both selected sub-tabs are known ones. */
  predicate KnownTabs(s: NavState) {
    s.homeTab in HomeTabs && IsProjectTab(s.projectTab)
  }

  /** What the main area shows: the home panel in the home mode and the
      project panel in the project mode. */
  function View(s: NavState): (r: Option<Panel>)
    ensures r.Some? ==> (IsHomePanel(r.value) <==> s.mode == Home)
  {
    if s.mode == Home then RenderHome(s.homeTab) else RenderProject(s.projectTab)
  }

  /** One event from the page keeps both selected sub-tabs known. */
  lemma StepKeepsKnownTabs(s: NavState, e: Event)
    requires KnownTabs(s) && FromPage(e)
    ensures KnownTabs(Step(s, e))
  {
    assert ProjectTabs[0].id == "introduction";
  }

  lemma {:induction false} RunKeepsKnownTabs(s: NavState, events: seq<Event>)
    requires KnownTabs(s)
    requires AllFromPage(events)
    ensures KnownTabs(Run(s, events))
    decreases |events|
  {
    if events != [] {
      assert events[0] in events;
      StepKeepsKnownTabs(s, events[0]);
      assert forall e :: e in events[1..] ==> e in events;
      RunKeepsKnownTabs(Step(s, events[0]), events[1..]);
    }
  }

  /** Driven only by the page's own buttons, both selected sub-tabs stay
      known ones. */
  lemma ReachableKnownTabs(events: seq<Event>)
    requires AllFromPage(events)
    ensures KnownTabs(Run(Initial(), events))
  {
    InitialKnownTabs();
    RunKeepsKnownTabs(Initial(), events);
  }

  lemma InitialKnownTabs()
    ensures KnownTabs(Initial())
  {
    assert ProjectTabs[0].id == Initial().projectTab;
  }

  /** Driven only by the page's own buttons, the main area always shows a
      panel: the `default` branches of both switches are never taken. */
  lemma PageAlwaysShowsPanel(events: seq<Event>)
    requires AllFromPage(events)
    ensures View(Run(Initial(), events)).Some?
  {
    ReachableKnownTabs(events);
    ShowsPanel(Run(Initial(), events));
  }

  /** A state whose sub-tabs are known shows a panel. */
  lemma ShowsPanel(s: NavState)
    requires KnownTabs(s)
    ensures View(s).Some?
  {
    RenderProjectCoversProjectTabs(s.projectTab);
  }

  /** From the start with the dropdown closed: the Projects button opens the
      dropdown on the projects page; pressing the menu entry (a mousedown
      inside the container, then the click) opens the project at its
      introduction and closes the dropdown. */
  lemma OpenProjectFromMenu()
    ensures var s := Run(Initial(), [ProjectsButtonClick]);
            s.showProjectsMenu && s.mode == Home && s.homeTab == "projects"
    ensures var s := Run(Initial(), [ProjectsButtonClick, MouseDown(true, true),
                                     OpenProjectClick("csci5612")]);
            s.mode == Project && s.activeProject == Some("csci5612") &&
            s.projectTab == "introduction" && !s.showProjectsMenu
  {
    var evs := [ProjectsButtonClick, MouseDown(true, true), OpenProjectClick("csci5612")];
    assert evs[1..] == [MouseDown(true, true), OpenProjectClick("csci5612")];
    assert evs[2..] == [OpenProjectClick("csci5612")];
  }
}
