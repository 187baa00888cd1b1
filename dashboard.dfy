/** The dashboard (src/components/Dashboard.tsx): revenue figures, status
    counts, the month-over-month change with its trend arrow, the numbers
    behind the downloadable report, and the "recent" lists. The current
    month and year are parameters. */
module Dashboard {
  import opened Domain
  import opened Sequences
  import opened Payments

  predicate IsActiveProject(p: Project) {
    p.status.InProgress?
  }

  predicate IsCompletedProject(p: Project) {
    p.status.Completed?
  }

  predicate IsOnHoldProject(p: Project) {
    p.status.OnHold?
  }

  /** A task still to be done: `todo` or `in-progress`. */
  predicate IsPendingTask(t: Task) {
    t.status.Todo? || t.status.InProgress?
  }

  predicate IsCompletedTask(t: Task) {
    t.status.Completed?
  }

  predicate IsInProgressTask(t: Task) {
    t.status.InProgress?
  }

  /** The filter of a month's revenue: completed, dated in that month and year. */
  function CompletedIn(month: int, year: int): Payment -> bool {
    (p: Payment) => p.date.month == month && p.date.year == year && IsCompleted(p)
  }

  /** The completed revenue dated in one month of one year. With
      non-negative amounts it never exceeds the total revenue, whose filter
      it strengthens. */
  function MonthRevenue(ps: seq<Payment>, month: int, year: int): (revenue: real)
    ensures NonNegativeAmounts(ps) ==> 0.0 <= revenue <= TotalReceived(ps)
  {
    MonthRevenueBounded(ps, month, year);
    Sum(Filter(ps, CompletedIn(month, year)), Amount)
  }

  lemma MonthRevenueBounded(ps: seq<Payment>, month: int, year: int)
    ensures NonNegativeAmounts(ps) ==>
      0.0 <= Sum(Filter(ps, CompletedIn(month, year)), Amount) <= Sum(Filter(ps, IsCompleted), Amount)
  {
    if NonNegativeAmounts(ps) {
      FilteredAmountsBounded(ps, CompletedIn(month, year));
      SumFilterMonotone(ps, CompletedIn(month, year), IsCompleted, Amount);
    }
  }

  // ------------------------------------------------------ previous month

  /** Last month's revenue as the dashboard computes it: month number minus
      one, in the same year. */
  function LastMonthRevenueAsWritten(ps: seq<Payment>, month: int, year: int): (revenue: real)
    ensures NonNegativeAmounts(ps) ==> 0.0 <= revenue <= TotalReceived(ps)
  {
    MonthRevenue(ps, month - 1, year)
  }

  /** In January the as-written filter asks for month -1, which no date has,
      so last month's revenue is always 0 there. */
  lemma AsWrittenJanuaryIsZero(ps: seq<Payment>, year: int)
    ensures (forall p :: p in ps ==> ValidDate(p.date)) ==> LastMonthRevenueAsWritten(ps, 0, year) == 0.0
  {
    if forall p :: p in ps ==> ValidDate(p.date) {
      FilterNone(ps, CompletedIn(-1, year));
    }
  }

  /** The month before (month, year), wrapping from January to December of
      the year before. */
  function PreviousMonth(month: int, year: int): (prev: (int, int))
    requires 0 <= month < 12
    ensures 0 <= prev.0 < 12
    ensures NextMonth(prev.0, prev.1) == (month, year)
  {
    if month == 0 then (11, year - 1) else (month - 1, year)
  }

  /** The month after (month, year). */
  function NextMonth(month: int, year: int): (int, int) {
    if month == 11 then (0, year + 1) else (month + 1, year)
  }

  /** Last month's revenue, with the year boundary handled: the completed
      revenue of the calendar month just before the current one. It agrees
      with the as-written figure in every month except January. */
  function LastMonthRevenue(ps: seq<Payment>, month: int, year: int): (revenue: real)
    requires 0 <= month < 12
    ensures NonNegativeAmounts(ps) ==> 0.0 <= revenue <= TotalReceived(ps)
    ensures month > 0 ==> revenue == LastMonthRevenueAsWritten(ps, month, year)
    ensures month == 0 ==> revenue == MonthRevenue(ps, 11, year - 1)
  {
    var prev := PreviousMonth(month, year);
    MonthRevenue(ps, prev.0, prev.1)
  }

  /** A completed December payment seen in January: the as-written figure
      is 0, the corrected one is the payment's amount. */
  lemma JanuaryCounterexample()
    ensures var p := Payment("p1", "d1", 50.0, PaymentStatus.Completed, CreditCard, Date(2025, 11, 15), "ref-1");
            LastMonthRevenueAsWritten([p], 0, 2026) == 0.0 && LastMonthRevenue([p], 0, 2026) == 50.0
  {
    var p := Payment("p1", "d1", 50.0, PaymentStatus.Completed, CreditCard, Date(2025, 11, 15), "ref-1");
    assert Filter([p], CompletedIn(-1, 2026)) == [];
    assert Filter([p], CompletedIn(11, 2025)) == [p];
  }

  /** The same payment in the reports: the dashboard's report shows a change
      of +100%, the corrected one -100% (nothing this month against 50 last
      month). */
  lemma JanuaryReportCounterexample()
    ensures var p := Payment("p1", "d1", 50.0, PaymentStatus.Completed, CreditCard, Date(2025, 11, 15), "ref-1");
            && GenerateReport([], [], [], [p], 0, 2026).revenue.change == 100.0
            && GenerateReportCorrected([], [], [], [p], 0, 2026).revenue.change == -100.0
  {
    var p := Payment("p1", "d1", 50.0, PaymentStatus.Completed, CreditCard, Date(2025, 11, 15), "ref-1");
    JanuaryCounterexample();
    assert Filter([p], CompletedIn(0, 2026)) == [];
    assert MonthRevenue([p], 0, 2026) == 0.0;
    assert RevenueChange(0.0, 50.0) == -100.0;
  }

  // ----------------------------------------------------- change and trend

  /** `revenueChange`: 100 when last month earned nothing, otherwise the
      relative change in percent. */
  function RevenueChange(thisMonth: real, lastMonth: real): (change: real)
    ensures lastMonth == 0.0 ==> change == 100.0
    ensures lastMonth != 0.0 ==> change * lastMonth == (thisMonth - lastMonth) * 100.0
  {
    if lastMonth == 0.0 then 100.0 else (thisMonth - lastMonth) / lastMonth * 100.0
  }

  datatype Trend = Up | Down

  /** The arrow on the revenue card. */
  function TrendOf(change: real): Trend {
    if change >= 0.0 then Up else Down
  }

  /** The arrow points up exactly when this month earned at least as much as
      last month, and always when last month earned nothing. */
  lemma TrendFollowsRevenue(thisMonth: real, lastMonth: real)
    requires lastMonth >= 0.0
    ensures lastMonth == 0.0 ==> TrendOf(RevenueChange(thisMonth, lastMonth)) == Up
    ensures lastMonth > 0.0 ==> (TrendOf(RevenueChange(thisMonth, lastMonth)) == Up <==> thisMonth >= lastMonth)
  {
    if lastMonth > 0.0 {
      var change := RevenueChange(thisMonth, lastMonth);
      assert change == (thisMonth - lastMonth) / lastMonth * 100.0;
      if thisMonth >= lastMonth {
        assert (thisMonth - lastMonth) / lastMonth >= 0.0;
      } else {
        assert (thisMonth - lastMonth) / lastMonth < 0.0;
      }
    }
  }

  // ---------------------------------------------------------------- report

  datatype RevenueSummary = RevenueSummary(total: real, thisMonth: real, lastMonth: real, change: real)
  datatype ProjectSummary = ProjectSummary(total: nat, active: nat, completed: nat, onHold: nat)
  datatype TaskSummary = TaskSummary(total: nat, pending: nat, completed: nat, inProgress: nat)
  datatype ClientSummary = ClientSummary(total: nat, active: nat)
  datatype Report = Report(
    revenue: RevenueSummary,
    projects: ProjectSummary,
    tasks: TaskSummary,
    clients: ClientSummary)

  /** The three project statuses counted are exclusive, so their counts fit
      within the number of projects. */
  lemma ProjectCountsBounded(projects: seq<Project>)
    ensures |Filter(projects, IsActiveProject)| + |Filter(projects, IsCompletedProject)|
            + |Filter(projects, IsOnHoldProject)| <= |projects|
  {
    CountDisjoint(projects, IsActiveProject, IsCompletedProject);
    CountDisjoint(projects, Either(IsActiveProject, IsCompletedProject), IsOnHoldProject);
  }

  /** Pending and completed tasks are exclusive, and every in-progress task
      is also pending. */
  lemma TaskCountsBounded(tasks: seq<Task>)
    ensures |Filter(tasks, IsPendingTask)| + |Filter(tasks, IsCompletedTask)| <= |tasks|
    ensures |Filter(tasks, IsInProgressTask)| <= |Filter(tasks, IsPendingTask)|
  {
    CountDisjoint(tasks, IsPendingTask, IsCompletedTask);
    CountMonotone(tasks, IsInProgressTask, IsPendingTask);
  }

  /** The report assembled from the collections and the two month
      revenues. */
  function ReportFrom(clients: seq<Client>, projects: seq<Project>, tasks: seq<Task>,
                      payments: seq<Payment>, thisMonth: real, lastMonth: real): (r: Report)
    ensures r.projects.total == |projects| && r.tasks.total == |tasks|
    ensures r.clients.total == |clients| && r.clients.active == |clients|
    ensures r.projects.active + r.projects.completed + r.projects.onHold <= r.projects.total
    ensures r.tasks.pending + r.tasks.completed <= r.tasks.total
    ensures r.tasks.inProgress <= r.tasks.pending
    ensures r.revenue.total == TotalReceived(payments)
    ensures r.revenue.thisMonth == thisMonth && r.revenue.lastMonth == lastMonth
    ensures lastMonth == 0.0 ==> r.revenue.change == 100.0
  {
    ProjectCountsBounded(projects);
    TaskCountsBounded(tasks);
    Report(
      RevenueSummary(TotalReceived(payments), thisMonth, lastMonth, RevenueChange(thisMonth, lastMonth)),
      ProjectSummary(|projects|, |Filter(projects, IsActiveProject)|,
                     |Filter(projects, IsCompletedProject)|, |Filter(projects, IsOnHoldProject)|),
      TaskSummary(|tasks|, |Filter(tasks, IsPendingTask)|,
                  |Filter(tasks, IsCompletedTask)|, |Filter(tasks, IsInProgressTask)|),
      ClientSummary(|clients|, |clients|))
  }

  /** The figures of `generateReport` (and of the statistic cards), with last
      month taken as the dashboard takes it: month number minus one in the
      same year. So in January last month is always 0 and the change 100. */
  function GenerateReport(clients: seq<Client>, projects: seq<Project>, tasks: seq<Task>,
                          payments: seq<Payment>, month: int, year: int): (r: Report)
    ensures r.projects.total == |projects| && r.tasks.total == |tasks|
    ensures r.clients.total == |clients| && r.clients.active == |clients|
    ensures r.projects.active + r.projects.completed + r.projects.onHold <= r.projects.total
    ensures r.tasks.pending + r.tasks.completed <= r.tasks.total
    ensures r.tasks.inProgress <= r.tasks.pending
    ensures r.revenue.lastMonth == 0.0 ==> r.revenue.change == 100.0
    ensures NonNegativeAmounts(payments) ==>
      0.0 <= r.revenue.thisMonth <= r.revenue.total && 0.0 <= r.revenue.lastMonth <= r.revenue.total
    ensures month == 0 && (forall p :: p in payments ==> ValidDate(p.date)) ==>
      r.revenue.lastMonth == 0.0 && r.revenue.change == 100.0
  {
    AsWrittenJanuaryIsZero(payments, year);
    ReportFrom(clients, projects, tasks, payments,
               MonthRevenue(payments, month, year), LastMonthRevenueAsWritten(payments, month, year))
  }

  /** The report with last month taken as the calendar month before the
      current one. It is the dashboard's report in every month but January;
      in January its last month is December of the year before. */
  function GenerateReportCorrected(clients: seq<Client>, projects: seq<Project>, tasks: seq<Task>,
                                   payments: seq<Payment>, month: int, year: int): (r: Report)
    requires 0 <= month < 12
    ensures month > 0 ==> r == GenerateReport(clients, projects, tasks, payments, month, year)
    ensures month == 0 ==> r.revenue.lastMonth == MonthRevenue(payments, 11, year - 1)
    ensures r.revenue.lastMonth == 0.0 ==> r.revenue.change == 100.0
    ensures NonNegativeAmounts(payments) ==>
      0.0 <= r.revenue.thisMonth <= r.revenue.total && 0.0 <= r.revenue.lastMonth <= r.revenue.total
  {
    ReportFrom(clients, projects, tasks, payments,
               MonthRevenue(payments, month, year), LastMonthRevenue(payments, month, year))
  }

  /** The "Recent Projects" and "Recent Tasks" lists: at most the first
      three entries, in insertion order. */
  function Recent<T>(s: seq<T>): (r: seq<T>)
    ensures |r| <= 3 && |r| <= |s| && r == s[..|r|]
    ensures |s| <= 3 ==> r == s
    ensures |s| >= 3 ==> |r| == 3
  {
    Take(s, 3)
  }
}
