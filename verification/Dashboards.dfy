/** The two dashboards (console_reports_wes.go: ExecuteWES; console_reports_wms.go: ExecuteWMS): which
    report feeds which panel, through the fan-out. */
module Dashboards {
  import opened Common
  import opened Series
  import opened Headlines
  import opened FanOut

  /** One context's analytics client: not configured, or what its two calls would answer. */
  datatype Client<T> = NoClient | Client(report: Result<T, string>, freshness: Result<real, string>)

  function Panel<T>(id: string, title: string, context: string, kind: string, c: Client<T>,
                    fetched: Option<Result<seq<SeriesPoint>, string>>): Spec {
    Spec(id, title, context, kind, c.Client?, fetched, if c.Client? then Some(c.freshness) else None)
  }

  ghost function Plotted<T>(c: Client<T>, plot: T -> seq<SeriesPoint>): Option<Result<seq<SeriesPoint>, string>> {
    if c.NoClient? then None else Some(match c.report case Ok(t) => Ok(plot(t)) case Err(e) => Err(e))
  }

  // Each panel is built where its report is fetched.

  ghost function PlanningPanel(c: Client<seq<Row>>): Spec {
    Panel("planning-throughput", "Planning Throughput", "wes-work-planning", "line", c, Plotted(c, SeriesOf))
  }

  ghost function FulfillmentPanel(c: Client<seq<Row>>): Spec {
    Panel("fulfillment-throughput", "Fulfillment Throughput", "fulfillment-execution", "bar", c, Plotted(c, SeriesOf))
  }

  ghost function LaborPanel(c: Client<seq<LaborRow>>): Spec {
    Panel("labor-management", "Workforce Labor", "workforce-management", "bar", c, Plotted(c, LaborSeries))
  }

  ghost function PerformancePanel(c: Client<seq<TaskTypeBar>>): Spec {
    Panel("labor-performance", "Labor Performance (Efficiency %)", "labor-performance", "bar", c, Plotted(c, BarSeries))
  }

  ghost function FunnelPanel(c: Client<seq<FunnelRow>>): Spec {
    Panel("order-funnel", "Order Funnel", "order-management", "funnel", c, Plotted(c, FunnelSeries))
  }

  ghost function FlowPanel(c: Client<seq<FlowRow>>): Spec {
    Panel("inventory-flow-accuracy", "Inventory Flow Accuracy", "inventory-storage", "bar", c, Plotted(c, FlowSeries))
  }

  ghost function GrowthPanel(c: Client<seq<Row>>): Spec {
    Panel("catalog-growth", "Catalog Growth", "facility-layout", "line", c, Plotted(c, SeriesOf))
  }

  method FetchPlanningPanel(c: Client<seq<Row>>) returns (p: Spec)
    ensures p == PlanningPanel(c)
  {
    var fetched: Option<Result<seq<SeriesPoint>, string>> := None;
    if c.Client? { var r := FetchBucketed(c.report); fetched := Some(r); }
    p := Panel("planning-throughput", "Planning Throughput", "wes-work-planning", "line", c, fetched);
  }

  method FetchFulfillmentPanel(c: Client<seq<Row>>) returns (p: Spec)
    ensures p == FulfillmentPanel(c)
  {
    var fetched: Option<Result<seq<SeriesPoint>, string>> := None;
    if c.Client? { var r := FetchFulfillmentThroughput(c.report); fetched := Some(r); }
    p := Panel("fulfillment-throughput", "Fulfillment Throughput", "fulfillment-execution", "bar", c, fetched);
  }

  method FetchLaborPanel(c: Client<seq<LaborRow>>) returns (p: Spec)
    ensures p == LaborPanel(c)
  {
    var fetched: Option<Result<seq<SeriesPoint>, string>> := None;
    if c.Client? { var r := FetchLabor(c.report); fetched := Some(r); }
    p := Panel("labor-management", "Workforce Labor", "workforce-management", "bar", c, fetched);
  }

  method FetchPerformancePanel(c: Client<seq<TaskTypeBar>>) returns (p: Spec)
    ensures p == PerformancePanel(c)
  {
    var fetched: Option<Result<seq<SeriesPoint>, string>> := None;
    if c.Client? { var r := FetchLaborPerformance(c.report); fetched := Some(r); }
    p := Panel("labor-performance", "Labor Performance (Efficiency %)", "labor-performance", "bar", c, fetched);
  }

  method FetchFunnelPanel(c: Client<seq<FunnelRow>>) returns (p: Spec)
    ensures p == FunnelPanel(c)
  {
    var fetched: Option<Result<seq<SeriesPoint>, string>> := None;
    if c.Client? { var r := FetchOrderFunnel(c.report); fetched := Some(r); }
    p := Panel("order-funnel", "Order Funnel", "order-management", "funnel", c, fetched);
  }

  method FetchFlowPanel(c: Client<seq<FlowRow>>) returns (p: Spec)
    ensures p == FlowPanel(c)
  {
    var fetched: Option<Result<seq<SeriesPoint>, string>> := None;
    if c.Client? { var r := FetchInventoryFlowAccuracy(c.report); fetched := Some(r); }
    p := Panel("inventory-flow-accuracy", "Inventory Flow Accuracy", "inventory-storage", "bar", c, fetched);
  }

  method FetchGrowthPanel(c: Client<seq<Row>>) returns (p: Spec)
    ensures p == GrowthPanel(c)
  {
    var fetched: Option<Result<seq<SeriesPoint>, string>> := None;
    if c.Client? { var r := FetchBucketed(c.report); fetched := Some(r); }
    p := Panel("catalog-growth", "Catalog Growth", "facility-layout", "line", c, fetched);
  }

  ghost function WesPanels(planning: Client<seq<Row>>, fulfillment: Client<seq<Row>>, labor: Client<seq<LaborRow>>,
                           performance: Client<seq<TaskTypeBar>>): seq<Spec> {
    [PlanningPanel(planning), FulfillmentPanel(fulfillment), LaborPanel(labor), PerformancePanel(performance)]
  }

  ghost function WmsPanels(funnel: Client<seq<FunnelRow>>, flow: Client<seq<FlowRow>>,
                           growth: Client<seq<Row>>): seq<Spec> {
    [FunnelPanel(funnel), FlowPanel(flow), GrowthPanel(growth)]
  }

  method ExecuteWES(planning: Client<seq<Row>>, fulfillment: Client<seq<Row>>, labor: Client<seq<LaborRow>>,
                    performance: Client<seq<TaskTypeBar>>)
    returns (sections: seq<Section>)
    ensures sections == SectionsOf(WesPanels(planning, fulfillment, labor, performance))
  {
    hide PlanningPanel, FulfillmentPanel, LaborPanel, PerformancePanel, SectionsOf;
    var p1 := FetchPlanningPanel(planning);
    var p2 := FetchFulfillmentPanel(fulfillment);
    var p3 := FetchLaborPanel(labor);
    var p4 := FetchPerformancePanel(performance);
    sections := RunSections([p1, p2, p3, p4]);
  }

  method ExecuteWMS(funnel: Client<seq<FunnelRow>>, flow: Client<seq<FlowRow>>,
                    growth: Client<seq<Row>>) returns (sections: seq<Section>)
    ensures sections == SectionsOf(WmsPanels(funnel, flow, growth))
  {
    hide FunnelPanel, FlowPanel, GrowthPanel, SectionsOf;
    var p1 := FetchFunnelPanel(funnel);
    var p2 := FetchFlowPanel(flow);
    var p3 := FetchGrowthPanel(growth);
    sections := RunSections([p1, p2, p3]);
  }

  /** Two answers of one client that differ at most in the order of the rows. */
  ghost predicate SameRows<T>(c: Client<seq<T>>, c': Client<seq<T>>) {
    match (c, c')
    case (NoClient, NoClient) => true
    case (Client(Ok(rows), f), Client(Ok(rows'), f')) => f == f' && multiset(rows) == multiset(rows')
    case (Client(Err(e), f), Client(Err(e'), f')) => c == c'
    case _ => false
  }

  /** If the chart ignores row order, so does what its panel plots. */
  lemma PlottedIgnoresRowOrder<T>(c: Client<seq<T>>, c': Client<seq<T>>, plot: seq<T> -> seq<SeriesPoint>)
    requires SameRows(c, c')
    requires c.Client? && c.report.Ok? ==> plot(c.report.value) == plot(c'.report.value)
    ensures Plotted(c, plot) == Plotted(c', plot) && c.Client? == c'.Client?
    ensures c.Client? ==> c.freshness == c'.freshness
  {
  }

  lemma BucketedIgnoresRowOrder(c: Client<seq<Row>>, c': Client<seq<Row>>)
    requires SameRows(c, c')
    ensures PlanningPanel(c) == PlanningPanel(c') && FulfillmentPanel(c) == FulfillmentPanel(c') && GrowthPanel(c) == GrowthPanel(c')
  {
    if c.Client? && c.report.Ok? { SeriesIgnoresRowOrder(c.report.value, c'.report.value); }
    PlottedIgnoresRowOrder(c, c', SeriesOf);
  }

  lemma LaborIgnoresRowOrder(c: Client<seq<LaborRow>>, c': Client<seq<LaborRow>>)
    requires SameRows(c, c')
    ensures LaborPanel(c) == LaborPanel(c')
  {
    if c.Client? && c.report.Ok? { HeadlinesIgnoreRowOrder([], [], [], [], c.report.value, c'.report.value); }
    PlottedIgnoresRowOrder(c, c', LaborSeries);
  }

  lemma FunnelIgnoresRowOrder(c: Client<seq<FunnelRow>>, c': Client<seq<FunnelRow>>)
    requires SameRows(c, c')
    ensures FunnelPanel(c) == FunnelPanel(c')
  {
    if c.Client? && c.report.Ok? { HeadlinesIgnoreRowOrder(c.report.value, c'.report.value, [], [], [], []); }
    PlottedIgnoresRowOrder(c, c', FunnelSeries);
  }

  lemma FlowIgnoresRowOrder(c: Client<seq<FlowRow>>, c': Client<seq<FlowRow>>)
    requires SameRows(c, c')
    ensures FlowPanel(c) == FlowPanel(c')
  {
    if c.Client? && c.report.Ok? { HeadlinesIgnoreRowOrder([], [], c.report.value, c'.report.value, [], []); }
    PlottedIgnoresRowOrder(c, c', FlowSeries);
  }

  /** Neither the schedule of the goroutines nor the row order of any upstream whose chart sums its rows
      can be seen on the WES dashboard. */
  lemma WesDashboardIgnoresRowOrder(p: Client<seq<Row>>, p': Client<seq<Row>>, f: Client<seq<Row>>,
                                    f': Client<seq<Row>>,
                                    l: Client<seq<LaborRow>>, l': Client<seq<LaborRow>>, b: Client<seq<TaskTypeBar>>)
    requires SameRows(p, p') && SameRows(f, f') && SameRows(l, l')
    ensures WesPanels(p, f, l, b) == WesPanels(p', f', l', b)
  {
    hide PlanningPanel, FulfillmentPanel, LaborPanel, PerformancePanel, SameRows;
    BucketedIgnoresRowOrder(p, p');
    BucketedIgnoresRowOrder(f, f');
    LaborIgnoresRowOrder(l, l');
  }

  /** The same for the WMS dashboard, all of whose charts sum their rows. */
  lemma WmsDashboardIgnoresRowOrder(o: Client<seq<FunnelRow>>, o': Client<seq<FunnelRow>>, w: Client<seq<FlowRow>>,
                                    w': Client<seq<FlowRow>>,
                                    g: Client<seq<Row>>, g': Client<seq<Row>>)
    requires SameRows(o, o') && SameRows(w, w') && SameRows(g, g')
    ensures WmsPanels(o, w, g) == WmsPanels(o', w', g')
  {
    hide FunnelPanel, FlowPanel, GrowthPanel, SameRows;
    FunnelIgnoresRowOrder(o, o');
    FlowIgnoresRowOrder(w, w');
    BucketedIgnoresRowOrder(g, g');
  }

  // ----- what a dashboard shows -----

  /** A panel stands under its own title, is available exactly when its client is configured and its report
      came, and then plots that report's chart; otherwise it says why and plots nothing. */
  ghost predicate Shows<T>(s: Section, id: string, title: string, context: string, kind: string, c: Client<T>,
                           plot: T -> seq<SeriesPoint>) {
    && s.id == id && s.title == title && s.sourceContext == context && s.chartKind == kind
    && (s.available <==> c.Client? && c.report.Ok?)
    && (s.available ==> s.series == plot(c.report.value) && s.error == None
                        && s.lag == if c.freshness.Ok? then Some(c.freshness.value) else None)
    && (!s.available ==> s.series == [] && s.lag == None
                         && s.error == Some(if c.Client? then NotAvailable(context) else NotConfigured(context)))
  }

  /** The WES dashboard, in display order: which report feeds which panel. */
  lemma WesDashboardShows(planning: Client<seq<Row>>, fulfillment: Client<seq<Row>>, labor: Client<seq<LaborRow>>,
                          performance: Client<seq<TaskTypeBar>>)
    ensures var s := SectionsOf(WesPanels(planning, fulfillment, labor, performance));
            && |s| == 4
            && Shows(s[0], "planning-throughput", "Planning Throughput", "wes-work-planning", "line", planning, SeriesOf)
            && Shows(s[1], "fulfillment-throughput", "Fulfillment Throughput", "fulfillment-execution", "bar", fulfillment, SeriesOf)
            && Shows(s[2], "labor-management", "Workforce Labor", "workforce-management", "bar", labor, LaborSeries)
            && Shows(s[3], "labor-performance", "Labor Performance (Efficiency %)", "labor-performance", "bar", performance, BarSeries)
  {
    hide SeriesOf, LaborSeries, BarSeries;
  }

  /** The WMS dashboard, in display order. */
  lemma WmsDashboardShows(funnel: Client<seq<FunnelRow>>, flow: Client<seq<FlowRow>>, growth: Client<seq<Row>>)
    ensures var s := SectionsOf(WmsPanels(funnel, flow, growth));
            && |s| == 3
            && Shows(s[0], "order-funnel", "Order Funnel", "order-management", "funnel", funnel, FunnelSeries)
            && Shows(s[1], "inventory-flow-accuracy", "Inventory Flow Accuracy", "inventory-storage", "bar", flow, FlowSeries)
            && Shows(s[2], "catalog-growth", "Catalog Growth", "facility-layout", "line", growth, SeriesOf)
  {
    hide SeriesOf, FunnelSeries, FlowSeries;
  }
}
