/**
 * The chart sizing helpers and the category switch of the skills dashboard
 * (src/components/Skills/SkillsDashboard.tsx).
 *
 * Every size is a step function of the integer window width with inclusive
 * breakpoints at 480, 768 and (for the radar chart) 1024 pixels; the bar
 * chart shows one of three fixed data sets chosen by the active category.
 */
module SkillsDashboard {

  // ---------------------------------------------------------------------------
  // Width-indexed helpers.
  // ---------------------------------------------------------------------------

  const MobileMax := 480
  const TabletMax := 768
  const LaptopMax := 1024

  function RadarChartSize(windowWidth: int): int {
    if windowWidth <= MobileMax then 45
    else if windowWidth <= TabletMax then 55
    else if windowWidth <= LaptopMax then 65
    else 70
  }

  function TickFontSize(windowWidth: int): int {
    if windowWidth <= MobileMax then 8
    else if windowWidth <= TabletMax then 9
    else 10
  }

  function BarSize(windowWidth: int): int {
    if windowWidth <= MobileMax then 10
    else if windowWidth <= TabletMax then 12
    else 15
  }

  function YAxisWidth(windowWidth: int): int {
    if windowWidth <= MobileMax then 50
    else if windowWidth <= TabletMax then 60
    else 80
  }

  datatype Margin = Margin(top: int, right: int, bottom: int, left: int)

  function ChartMargin(windowWidth: int): (m: Margin)
    ensures m.top == 5 && m.bottom == 5 && m.left == 0
    ensures m.right in {10, 15, 20}
  {
    if windowWidth <= MobileMax then Margin(5, 10, 5, 0)
    else if windowWidth <= TabletMax then Margin(5, 15, 5, 0)
    else Margin(5, 20, 5, 0)
  }

  /** The breakpoint a width falls in; an independent account of the three-band helpers. */
  function Band(windowWidth: int): (b: nat)
    ensures b < 3
    ensures b == 0 <==> windowWidth <= MobileMax
    ensures b == 2 <==> windowWidth > TabletMax
  {
    if windowWidth <= MobileMax then 0 else if windowWidth <= TabletMax then 1 else 2
  }

  /** Each three-band helper reads its value from a table indexed by the band. */
  lemma ThreeBandTables(windowWidth: int)
    ensures TickFontSize(windowWidth) == [8, 9, 10][Band(windowWidth)]
    ensures BarSize(windowWidth) == [10, 12, 15][Band(windowWidth)]
    ensures YAxisWidth(windowWidth) == [50, 60, 80][Band(windowWidth)]
    ensures ChartMargin(windowWidth).right == [10, 15, 20][Band(windowWidth)]
  {
  }

  /** The radar chart size, value by value: each value occurs exactly on its band of widths. */
  lemma RadarChartBands(windowWidth: int)
    ensures RadarChartSize(windowWidth) == 45 <==> windowWidth <= 480
    ensures RadarChartSize(windowWidth) == 55 <==> 480 < windowWidth <= 768
    ensures RadarChartSize(windowWidth) == 65 <==> 768 < windowWidth <= 1024
    ensures RadarChartSize(windowWidth) == 70 <==> 1024 < windowWidth
  {
  }

  /** A wider window never gets a smaller chart, font, bar, axis or right margin. */
  lemma SizesMonotone(narrow: int, wide: int)
    requires narrow <= wide
    ensures RadarChartSize(narrow) <= RadarChartSize(wide)
    ensures TickFontSize(narrow) <= TickFontSize(wide)
    ensures BarSize(narrow) <= BarSize(wide)
    ensures YAxisWidth(narrow) <= YAxisWidth(wide)
    ensures ChartMargin(narrow).right <= ChartMargin(wide).right
  {
  }

  // ---------------------------------------------------------------------------
  // Category data and getDataForCategory.
  // ---------------------------------------------------------------------------

  datatype SkillBar = SkillBar(name: string, value: int)

  const LanguagesData: seq<SkillBar> := [
    SkillBar("Python", 90), SkillBar("R", 85), SkillBar("JavaScript", 70),
    SkillBar("SQL", 80), SkillBar("Java", 60), SkillBar("TypeScript", 65)]

  const ToolsData: seq<SkillBar> := [
    SkillBar("Pandas", 95), SkillBar("NumPy", 90), SkillBar("Scikit-learn", 85),
    SkillBar("TensorFlow", 75), SkillBar("PyTorch", 70), SkillBar("D3.js", 80)]

  const VisualizationData: seq<SkillBar> := [
    SkillBar("Tableau", 85), SkillBar("Power BI", 80), SkillBar("Matplotlib", 90),
    SkillBar("Seaborn", 85), SkillBar("Plotly", 75), SkillBar("ggplot2", 70)]

  /** The category the dashboard opens with. */
  const InitialCategory := "languages"

  /** The X axis of the bar chart spans [0, 100]. */
  const AxisMin := 0
  const AxisMax := 100

  function DataForCategory(activeCategory: string): seq<SkillBar> {
    match activeCategory
    case "languages" => LanguagesData
    case "tools" => ToolsData
    case "visualization" => VisualizationData
    case _ => LanguagesData
  }

  predicate WithinAxis(data: seq<SkillBar>) {
    forall k :: 0 <= k < |data| ==> AxisMin <= data[k].value <= AxisMax
  }

  /**
   * The switch picks the named data set, and the languages set exactly when
   * the category is neither "tools" nor "visualization".
   */
  lemma DataForCategorySelects(activeCategory: string)
    ensures activeCategory == "tools" ==> DataForCategory(activeCategory) == ToolsData
    ensures activeCategory == "visualization" ==> DataForCategory(activeCategory) == VisualizationData
    ensures DataForCategory(activeCategory) == LanguagesData
            <==> activeCategory != "tools" && activeCategory != "visualization"
    ensures DataForCategory(InitialCategory) == LanguagesData
  {
    assert LanguagesData[0] != ToolsData[0];
    assert LanguagesData[0] != VisualizationData[0];
  }

  /** Whatever the category, the chart gets six bars, each inside the axis domain. */
  lemma CategoryDataFitsAxis(activeCategory: string)
    ensures |DataForCategory(activeCategory)| == 6
    ensures WithinAxis(DataForCategory(activeCategory))
  {
  }
}
