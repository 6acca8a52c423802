/**
 * The project portfolio grid (src/components/Projects/Projects.tsx): the
 * category filter over the project list, the table that gives each project
 * card its scroll animation, and the table of technology icons.
 */
module Projects {
  import opened Wrappers

  /** The fields of a project that the filter and the card footer use. */
  datatype Project = Project(id: int, title: string, tech: seq<string>, category: string)

  const ProjectsData: seq<Project> := [
    Project(1, "COVID-19 Data Analysis Dashboard", ["python", "visualization", "machine-learning"], "visualization"),
    Project(2, "Stock Market Sentiment Analysis", ["python", "machine-learning", "database"], "machine-learning"),
    Project(3, "Housing Price Prediction Model", ["python", "machine-learning"], "machine-learning"),
    Project(4, "Customer Segmentation Analysis", ["python", "visualization", "database"], "data-analysis"),
    Project(5, "Social Media Trend Analyzer", ["python", "visualization", "database"], "visualization"),
    Project(6, "Weather Pattern Prediction", ["python", "machine-learning", "visualization"], "machine-learning")
  ]

  /** The filter the grid opens with, and the value of the "All Projects" button. */
  const AllFilter := "all"

  // ---------------------------------------------------------------------------
  // filteredProjects
  // ---------------------------------------------------------------------------

  /** `projects.filter(project => project.category === category)`. */
  function FilterByCategory(category: string, projects: seq<Project>): (r: seq<Project>)
    ensures |r| <= |projects|
    ensures forall k :: 0 <= k < |r| ==> r[k].category == category
  {
    if projects == [] then []
    else (if projects[0].category == category then [projects[0]] else [])
         + FilterByCategory(category, projects[1..])
  }

  function FilteredProjects(filter: string, projects: seq<Project>): seq<Project> {
    if filter == AllFilter then projects else FilterByCategory(filter, projects)
  }

  /** The filter keeps exactly the projects of its category: none is lost, none is added. */
  lemma {:induction false} FilterMembership(category: string, projects: seq<Project>, p: Project)
    ensures p in FilterByCategory(category, projects) <==> p in projects && p.category == category
  {
    if projects != [] {
      FilterMembership(category, projects[1..], p);
      assert projects == [projects[0]] + projects[1..];
    }
  }

  /** Filtering a concatenation filters each part in place, so the original order is kept. */
  lemma {:induction false} FilterAppend(category: string, front: seq<Project>, back: seq<Project>)
    ensures FilterByCategory(category, front + back)
            == FilterByCategory(category, front) + FilterByCategory(category, back)
  {
    if front == [] {
      assert front + back == back;
    } else {
      assert (front + back)[1..] == front[1..] + back;
      FilterAppend(category, front[1..], back);
    }
  }

  /** A list whose projects all have the category passes the filter unchanged. */
  lemma {:induction false} FilterKeepsMatching(category: string, projects: seq<Project>)
    requires forall k :: 0 <= k < |projects| ==> projects[k].category == category
    ensures FilterByCategory(category, projects) == projects
  {
    if projects != [] {
      FilterKeepsMatching(category, projects[1..]);
    }
  }

  /** "all" shows every project in order; any other filter applied twice is the same as once. */
  lemma FilteredProjectsIdempotent(filter: string, projects: seq<Project>)
    ensures FilteredProjects(AllFilter, projects) == projects
    ensures FilteredProjects(filter, FilteredProjects(filter, projects)) == FilteredProjects(filter, projects)
  {
    if filter != AllFilter {
      FilterKeepsMatching(filter, FilterByCategory(filter, projects));
    }
  }

  /** How many projects fall in a category. */
  function CountCategory(category: string, projects: seq<Project>): nat {
    if projects == [] then 0
    else (if projects[0].category == category then 1 else 0) + CountCategory(category, projects[1..])
  }

  lemma {:induction false} FilterLength(category: string, projects: seq<Project>)
    ensures |FilterByCategory(category, projects)| == CountCategory(category, projects)
  {
    if projects != [] {
      FilterLength(category, projects[1..]);
    }
  }

  const FilterCategories: seq<string> := ["data-analysis", "visualization", "machine-learning"]

  /** When every project has one of the three button categories, the three filters share the list out. */
  lemma {:induction false} CategoriesPartition(projects: seq<Project>)
    requires forall k :: 0 <= k < |projects| ==> projects[k].category in FilterCategories
    ensures |FilterByCategory("data-analysis", projects)| + |FilterByCategory("visualization", projects)|
            + |FilterByCategory("machine-learning", projects)| == |projects|
  {
    FilterLength("data-analysis", projects);
    FilterLength("visualization", projects);
    FilterLength("machine-learning", projects);
    CountsPartition(projects);
  }

  lemma {:induction false} CountsPartition(projects: seq<Project>)
    requires forall k :: 0 <= k < |projects| ==> projects[k].category in FilterCategories
    ensures CountCategory("data-analysis", projects) + CountCategory("visualization", projects)
            + CountCategory("machine-learning", projects) == |projects|
  {
    if projects != [] {
      assert projects[0].category in FilterCategories;
      CountsPartition(projects[1..]);
    }
  }

  /** The filter over the site's data, one project at a time. */
  lemma FilterProjectsData(category: string)
    ensures FilterByCategory(category, ProjectsData)
            == (if ProjectsData[0].category == category then [ProjectsData[0]] else [])
             + (if ProjectsData[1].category == category then [ProjectsData[1]] else [])
             + (if ProjectsData[2].category == category then [ProjectsData[2]] else [])
             + (if ProjectsData[3].category == category then [ProjectsData[3]] else [])
             + (if ProjectsData[4].category == category then [ProjectsData[4]] else [])
             + (if ProjectsData[5].category == category then [ProjectsData[5]] else [])
  {
    var ps := ProjectsData;
    assert ps == [ps[0]] + [ps[1]] + [ps[2]] + [ps[3]] + [ps[4]] + [ps[5]];
    FilterAppend(category, [ps[0]] + [ps[1]] + [ps[2]] + [ps[3]] + [ps[4]], [ps[5]]);
    FilterAppend(category, [ps[0]] + [ps[1]] + [ps[2]] + [ps[3]], [ps[4]]);
    FilterAppend(category, [ps[0]] + [ps[1]] + [ps[2]], [ps[3]]);
    FilterAppend(category, [ps[0]] + [ps[1]], [ps[2]]);
    FilterAppend(category, [ps[0]], [ps[1]]);
  }

  /** On the site's data the three category buttons show projects 4; 1 and 5; and 2, 3 and 6. */
  lemma ProjectsDataPartition()
    ensures FilteredProjects("data-analysis", ProjectsData) == [ProjectsData[3]]
    ensures FilteredProjects("visualization", ProjectsData) == [ProjectsData[0], ProjectsData[4]]
    ensures FilteredProjects("machine-learning", ProjectsData) == [ProjectsData[1], ProjectsData[2], ProjectsData[5]]
    ensures |FilteredProjects(AllFilter, ProjectsData)| == 1 + 2 + 3
  {
    FilterProjectsData("data-analysis");
    FilterProjectsData("visualization");
    FilterProjectsData("machine-learning");
  }

  // ---------------------------------------------------------------------------
  // projectAnimationsMap and techIconMap
  // ---------------------------------------------------------------------------

  /** Project id to the position of its scroll-animation hook (project1Animation ... project6Animation). */
  const ProjectAnimationsMap: map<int, nat> := map[1 := 1, 2 := 2, 3 := 3, 4 := 4, 5 := 5, 6 := 6]

  /** Every card the grid renders, under any filter, finds its animation hook. */
  lemma AnimationLookupNeverMisses(filter: string, p: Project)
    requires p in FilteredProjects(filter, ProjectsData)
    ensures p.id in ProjectAnimationsMap
  {
    if filter != AllFilter {
      FilterMembership(filter, ProjectsData, p);
    }
  }

  datatype TechIcon = FaPython | FaRegChartBar | FaRobot | FaDatabase

  const TechIconMap: map<string, TechIcon> := map[
    "python" := FaPython, "visualization" := FaRegChartBar,
    "machine-learning" := FaRobot, "database" := FaDatabase]

  /** The icon slot of each tech tag: the mapped icon when the tag is a key, an empty slot otherwise. */
  function TechIcons(tech: seq<string>): (icons: seq<Option<TechIcon>>)
    ensures |icons| == |tech|
    ensures forall k :: 0 <= k < |tech| ==> (icons[k].Some? <==> tech[k] in TechIconMap)
    ensures forall k :: 0 <= k < |tech| && tech[k] in TechIconMap ==> icons[k] == Some(TechIconMap[tech[k]])
  {
    if tech == [] then []
    else [if tech[0] in TechIconMap then Some(TechIconMap[tech[0]]) else None] + TechIcons(tech[1..])
  }

  /** Every tech tag in the site's data is a key of the icon table, so no slot is left empty. */
  lemma EveryTechTagHasIcon(i: nat, k: nat)
    requires i < |ProjectsData| && k < |ProjectsData[i].tech|
    ensures ProjectsData[i].tech[k] in TechIconMap
    ensures TechIcons(ProjectsData[i].tech)[k].Some?
  {
  }
}
