/** The tab identifiers of the site and the two view switches that map a
    selected tab to the panel shown in the main area. Tabs are plain strings,
    as in the source, so an identifier outside the known set is possible and
    renders nothing. */
module Tabs {
  import opened Optional

  /** An entry of `PROJECT_TABS`: the identifier and the button label (`title`). */
  datatype TabInfo = TabInfo(id: string, title: string)

  /** The project sub-tabs, in display order. */
  const ProjectTabs: seq<TabInfo> := [
    TabInfo("introduction", "Introduction"),
    TabInfo("conclusions", "Conclusions"),
    TabInfo("dataprep_eda", "DataPrep_EDA"),
    TabInfo("clustering", "Clustering"),
    TabInfo("pca", "PCA"),
    TabInfo("naivebayes", "NaiveBayes"),
    TabInfo("dectrees", "DecTrees"),
    TabInfo("svms", "SVMs"),
    TabInfo("regression", "Regression"),
    TabInfo("nn", "NN")
  ]

  /** The home sub-tabs the header offers. */
  const HomeTabs: seq<string> := ["about", "projects", "resume"]

  /** `t` is the identifier of one of the project sub-tabs. */
  predicate IsProjectTab(t: string) {
    exists k :: 0 <= k < |ProjectTabs| && ProjectTabs[k].id == t
  }

  /** The panel the main area shows. */
  datatype Panel =
    | AboutMe
    | ProjectsLanding
    | Resume
    | Intro
    | Conclusions
    | DataPrepEda
    | Clustering
    | PcaTab
    | Placeholder(name: string)

  /** The panels the home switch shows. */
  predicate IsHomePanel(p: Panel) {
    p in {AboutMe, ProjectsLanding, Resume}
  }

  /** `renderHome`: the panel of a home sub-tab, `None` for an unknown one. */
  function RenderHome(tab: string): (r: Option<Panel>)
    ensures r.Some? <==> tab in HomeTabs
    ensures r.Some? ==> IsHomePanel(r.value)
  {
    match tab
    case "about" => Some(AboutMe)
    case "projects" => Some(ProjectsLanding)
    case "resume" => Some(Resume)
    case _ => None
  }

  /** `renderProject`: the panel of a project sub-tab, `None` for an
      unknown one. It shows only project panels, and the introduction tab
      that `openProject` selects shows the introduction. The exact set of
      tabs it accepts is `RenderProjectCoversProjectTabs`. */
  function RenderProject(tab: string): (r: Option<Panel>)
    ensures r.Some? ==> !IsHomePanel(r.value)
    ensures tab == ProjectTabs[0].id ==> r == Some(Intro)
  {
    match tab
    case "introduction" => Some(Intro)
    case "conclusions" => Some(Conclusions)
    case "dataprep_eda" => Some(DataPrepEda)
    case "clustering" => Some(Clustering)
    case "pca" => Some(PcaTab)
    case "naivebayes" => Some(Placeholder("Naive Bayes"))
    case "dectrees" => Some(Placeholder("Decision Trees"))
    case "svms" => Some(Placeholder("SVMs"))
    case "regression" => Some(Placeholder("Regression"))
    case "nn" => Some(Placeholder("Neural Networks"))
    case _ => None
  }

  /** The project switch has a case for exactly the tabs of `ProjectTabs`. */
  lemma RenderProjectCoversProjectTabs(tab: string)
    ensures RenderProject(tab).Some? <==> IsProjectTab(tab)
  {
    if RenderProject(tab).Some? {
      var k :=
        match tab
        case "introduction" => 0
        case "conclusions" => 1
        case "dataprep_eda" => 2
        case "clustering" => 3
        case "pca" => 4
        case "naivebayes" => 5
        case "dectrees" => 6
        case "svms" => 7
        case "regression" => 8
        case _ => 9;
      assert ProjectTabs[k].id == tab;
    }
    if IsProjectTab(tab) {
      var k :| 0 <= k < |ProjectTabs| && ProjectTabs[k].id == tab;
      assert k in {0, 1, 2, 3, 4, 5, 6, 7, 8, 9};
    }
  }

  /** Different project sub-tabs show different panels. */
  lemma RenderProjectInjective(a: string, b: string)
    requires RenderProject(a).Some? && RenderProject(a) == RenderProject(b)
    ensures a == b
  {
  }

  /** Different home sub-tabs show different panels, and no home panel is a
      project panel. */
  lemma RenderHomeInjective(a: string, b: string)
    requires RenderHome(a).Some? && RenderHome(a) == RenderHome(b)
    ensures a == b
    ensures RenderHome(a) != RenderProject(b)
  {
  }
}
