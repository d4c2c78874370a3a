# Portfolio site UI state machines

This is a Dafny model of the two pieces of behaviour in the portfolio site's single React component file (`src/App.jsx`):

- **Lightbox gallery** (`LightboxGallery`). A thumbnail grid opens a modal on one item, which is its `openIndex`. The modal steps forward and back with wrap-around and listens to Escape, ArrowRight and ArrowLeft while it is open. Module `Lightbox` holds:
  - the `next`/`prev` updaters and the key dispatcher, as functions;
  - the cycle and inverse lemmas;
  - a `Gallery` class whose methods are the component's handlers.
- **Two-level navigation** (`App`). The state has five parts:
  - a mode (home or project);
  - a home sub-tab;
  - an optional active project;
  - a project sub-tab taken from `PROJECT_TABS`;
  - the open/closed state of the "Projects" dropdown. An outside mousedown closes the dropdown.

  Module `Tabs` holds `PROJECT_TABS` and the two view switches. Module `Navigation` holds:
  - the state as a record, with one transition function per handler;
  - the invariant that a project is active exactly in project mode, proved for every reachable state;
  - the proof that clicks on the page never reach the `default: return null` branch of either switch.

  Module `AppShell` holds the `App` class. Its fields are the five state variables. Its methods assign them one setter after another and are proved equal to the `Navigation` transitions.

Notes on the modelling:

- Each handler is one atomic transition. React's batching of setter calls is not modelled.
- Tab identifiers stay `string`s, as in the source, so unknown identifiers are representable and render `None`.
- The gallery index is a `nat`. All operands of `%` in the updaters are non-negative, so JavaScript's truncating `%` and Dafny's Euclidean `%` agree.
- The DOM test `ref.current.contains(e.target)` becomes two booleans: `attached` (the container element exists) and `inside` (the target lies inside it).

Two details of the gallery:

- `next`/`prev` on a closed gallery open it at index 0 (`src/App.jsx:100-101`), and `NextIndex`/`PrevIndex` say so.
- A closed gallery still ignores every key, because the keydown listener is attached only while the modal is open. `OnKey` and `ClosedIgnoresKeys` state this.

## Model

| member | source | states |
|---|---|---|
| `Lightbox.NextIndex` | src/App.jsx:100 | on an open gallery of n > 0 items, `next` moves forward one item and wraps from the last item to index 0, staying in [0, n); a closed gallery opens at index 0 |
| `Lightbox.PrevIndex` | src/App.jsx:101 | on an open gallery, `prev` moves back one item and wraps from index 0 to n - 1, staying in [0, n); a closed gallery opens at index 0 |
| `Lightbox.NextUndoesPrev` | src/App.jsx:100-101 | `next(prev(i)) = i` and `prev(next(i)) = i` for every open index i < n |
| `Lightbox.SingleItemFixed` | src/App.jsx:100-101 | with one item, `next` and `prev` leave the open index unchanged |
| `Lightbox.NextTimesLandsAt` | src/App.jsx:100 | k steps of `next` from item i land on item (i + k) mod n |
| `Lightbox.PrevTimesLandsAt` | src/App.jsx:101 | k steps of `prev` from item i land on item (i - k) mod n |
| `Lightbox.FullCycle` | src/App.jsx:100-101 | n steps of `next`, or n of `prev`, return to the starting item |
| `Lightbox.OnKey` | src/App.jsx:103-109 | while open: Escape closes, ArrowRight is `next`, ArrowLeft is `prev`, any other key changes nothing; while closed, no key is handled; the index stays in range |
| `Lightbox.ClosedIgnoresKeys` | src/App.jsx:103-109 | no sequence of keys reopens a closed gallery |
| `Lightbox.KeysStayInRange` | src/App.jsx:99-109 | after any sequence of keys, the open index (if any) names an item |
| `Lightbox.ArrowPressesStep` | src/App.jsx:100-108 | k ArrowRight presses are k steps of `next`; k ArrowLeft presses are k steps of `prev` |
| `Lightbox.ArrowKeysCycle` | src/App.jsx:100-108 | pressing ArrowRight (or ArrowLeft) n times returns to the same item |
| `Lightbox.ThreeItemWalk` | src/App.jsx:99-108 | three items, opened at 0: two ArrowRights reach 2, a third wraps to 0, and Escape closes |
| `Lightbox.Gallery.constructor` | src/App.jsx:96 | a new gallery starts closed |
| `Lightbox.Gallery.Open` | src/App.jsx:121 | clicking thumbnail i < n opens the modal on item i |
| `Lightbox.Gallery.Close` | src/App.jsx:99 | `close` always leaves the gallery closed |
| `Lightbox.Gallery.Next` | src/App.jsx:100 | the state becomes `NextIndex` of the old state and stays in range |
| `Lightbox.Gallery.Prev` | src/App.jsx:101 | the state becomes `PrevIndex` of the old state and stays in range |
| `Lightbox.Gallery.KeyDown` | src/App.jsx:103-109 | the keydown listener (present only while open), with its three tests one after the other, acts as `OnKey` |
| `Tabs.RenderHome` | src/App.jsx:957-968 | `renderHome` gives a panel exactly for "about", "projects" and "resume", and only home panels |
| `Tabs.RenderProject` | src/App.jsx:970-995 | `renderProject` shows only project panels, never a home panel; the "introduction" tab shows the introduction; it is `None` exactly for identifiers outside `ProjectTabs` (see `RenderProjectCoversProjectTabs`) |
| `Tabs.RenderProjectCoversProjectTabs` | src/App.jsx:970-995 | `renderProject` gives a panel exactly for the identifiers listed in `PROJECT_TABS` (lines 21-32), so it is `null` exactly for unknown ones |
| `Tabs.RenderProjectInjective` | src/App.jsx:970-995 | different project sub-tabs show different panels |
| `Tabs.RenderHomeInjective` | src/App.jsx:957-968 | different home sub-tabs show different panels, and a home panel is never a project panel |
| `Navigation.Initial` | src/App.jsx:936-940 | the start state is (home, "about", no project, "introduction", menu closed), and it is consistent |
| `Navigation.OpenProject` | src/App.jsx:944-949 | `openProject(id)` sets the active project to id, the project sub-tab to "introduction" and the mode to project, closes the menu, and keeps the home sub-tab |
| `Navigation.GoHome` | src/App.jsx:951-955 | `goHome(tab)` sets the mode to home and the home sub-tab to tab ("about" when none is given), clears the active project, and keeps the project sub-tab and the menu |
| `Navigation.SetProjectTab` | src/App.jsx:1052 | `setProjectTab(t)` changes only the project sub-tab and keeps consistency |
| `Navigation.ClickProjectsButton` | src/App.jsx:1020-1028 | the Projects button always toggles the menu; outside project mode it also sets the mode to home and the home sub-tab to "projects"; in project mode nothing else changes |
| `Navigation.OutsideMouseDown` | src/App.jsx:924-933 | a mousedown outside an existing container closes the menu; one inside, or while the container is absent, changes nothing; nothing else ever changes |
| `Navigation.RunKeepsConsistent` | src/App.jsx:936-955 | every sequence of handlers keeps a project active exactly in project mode |
| `Navigation.ReachableConsistent` | src/App.jsx:936-955 | every state reachable from the initial state has a project active exactly in project mode |
| `Navigation.InitialKnownTabs` | src/App.jsx:936-940 | the initial home sub-tab "about" and project sub-tab "introduction" are known identifiers |
| `Navigation.StepKeepsKnownTabs` | src/App.jsx:1001-1052 | one handler call with arguments the page's buttons pass keeps both selected sub-tabs known |
| `Navigation.RunKeepsKnownTabs` | src/App.jsx:1001-1052 | with the arguments the page's buttons pass, both selected sub-tabs stay known identifiers |
| `Navigation.ReachableKnownTabs` | src/App.jsx:1001-1052 | every state the page's buttons can reach from the start has known home and project sub-tabs |
| `Navigation.View` | src/App.jsx:1060 | the main area shows `RenderHome` in home mode and `RenderProject` in project mode, so a home panel is shown exactly in home mode |
| `Navigation.ShowsPanel` | src/App.jsx:1060 | a state with known sub-tabs shows a panel in the main area |
| `Navigation.PageAlwaysShowsPanel` | src/App.jsx:1060 | driven by the page's own buttons, the main area always shows a panel: neither switch reaches its `null` default |
| `Navigation.OpenProjectFromMenu` | src/App.jsx:1020-1036 | from the start, the Projects button opens the menu on the projects page; the menu entry then opens "csci5612" at its introduction with the menu closed |
| `AppShell.App.constructor` | src/App.jsx:936-940 | the five state variables start as `Navigation.Initial` |
| `AppShell.App.OpenProject` | src/App.jsx:944-949 | the four setter calls together produce `Navigation.OpenProject` and keep consistency |
| `AppShell.App.GoHome` | src/App.jsx:951-955 | the three setter calls together produce `Navigation.GoHome` and keep consistency |
| `AppShell.App.SetProjectTab` | src/App.jsx:1052 | the setter produces `Navigation.SetProjectTab` and keeps consistency |
| `AppShell.App.ClickProjectsButton` | src/App.jsx:1020-1028 | both branches of the button's handler produce `Navigation.ClickProjectsButton` and keep consistency |
| `AppShell.App.OutsideMouseDown` | src/App.jsx:924-933 | the listener's early return and dismissal produce `Navigation.OutsideMouseDown` and keep consistency |

## Left out

- Attaching and detaching the document listeners (`useEffect`, `addEventListener`/`removeEventListener`) is browser event-loop and React scheduling work. The model keeps only its effect: keydown is handled only while the gallery is open, and mousedown always.
- `Lightbox.Gallery.Next`, `Lightbox.Gallery.Prev`: these require a non-empty gallery. `% 0` would give `NaN`, and with no items the modal would index a missing item. The page only calls them while the modal is open, which already implies at least one item.
- The gallery state is reset when a panel unmounts on a tab change. Mounting and unmounting are not modelled; each `Gallery` object is one mounted instance.
- All JSX markup, class strings, static content panels, asset URLs (`import.meta.env.BASE_URL`), external links and the footer year (`new Date()`) are presentation or environment, with no state to model.
- The `active` highlighting of the tab buttons is a display expression, not a state change.
- React's batching of setter calls and the timing of functional updaters are not modelled; each handler is one atomic transition.
