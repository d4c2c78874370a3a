/** The `App` component: its five state variables as fields and its handlers
    as methods that assign them one setter at a time. Each handler is
    specified by the transition of the same name in `Navigation`. */
module AppShell {
  import opened Optional
  import Navigation

  class App {
    var mode: Navigation.Mode
    var homeTab: string
    var activeProject: Option<string>
    var projectTab: string
    var showProjectsMenu: bool

    /** The component state as a value. */
    function State(): Navigation.NavState
      reads this
    {
      Navigation.NavState(mode, homeTab, activeProject, projectTab, showProjectsMenu)
    }

    ghost predicate Valid()
      reads this
    {
      Navigation.Consistent(State())
    }

    /** The initial values of the five `useState` calls. */
    constructor ()
      ensures State() == Navigation.Initial() && Valid()
    {
      mode := Navigation.Home;
      homeTab := "about";
      activeProject := None;
      projectTab := "introduction";
      showProjectsMenu := false;
    }

    method OpenProject(id: string)
      modifies this
      ensures State() == Navigation.OpenProject(old(State()), id) && Valid()
    {
      activeProject := Some(id);
      projectTab := "introduction";
      mode := Navigation.Project;
      showProjectsMenu := false;
    }

    /** `tab` is `None` when the caller passes no tab. */
    method GoHome(tab: Option<string>)
      modifies this
      ensures State() == Navigation.GoHome(old(State()), tab) && Valid()
    {
      mode := Navigation.Home;
      homeTab := if tab.Some? then tab.value else "about";
      activeProject := None;
    }

    method SetProjectTab(t: string)
      requires Valid()
      modifies this
      ensures State() == Navigation.SetProjectTab(old(State()), t) && Valid()
    {
      projectTab := t;
    }

    /** The `onClick` of the "Projects ▾" button. */
    method ClickProjectsButton()
      requires Valid()
      modifies this
      ensures State() == Navigation.ClickProjectsButton(old(State())) && Valid()
    {
      if mode == Navigation.Project {
        showProjectsMenu := !showProjectsMenu;
      } else {
        showProjectsMenu := !showProjectsMenu;
        homeTab := "projects";
        mode := Navigation.Home;
      }
    }

    /** The mousedown listener installed by `useOutsideClick`. */
    method OutsideMouseDown(attached: bool, inside: bool)
      requires Valid()
      modifies this
      ensures State() == Navigation.OutsideMouseDown(old(State()), attached, inside) && Valid()
    {
      if !attached || inside {
        return;
      }
      showProjectsMenu := false;
    }
  }
}
