/** The reports screen: constant report tables, the key-figure cards with
    their PKR conversion, and the hostel performance table with its average
    rent per occupant and its performance badge. */
module Reports {
  import opened Records
  import JsMath

  datatype MonthRow = MonthRow(month: string, income: int, expenses: int, profit: int, occupancy: int)
  datatype ExpenseShare = ExpenseShare(name: string, value: int, amount: int)
  datatype OccupancyRow = OccupancyRow(name: string, occupancy: int, capacity: int, occupied: int)
  datatype RevenueRow = RevenueRow(name: string, revenue: int, percentage: int)
  datatype Kpi = Kpi(
    totalRevenue: int, totalExpenses: int, netProfit: int, profitMargin: int,
    averageOccupancy: int, totalTenants: int, newTenants: int)

  const MonthlyFinancialData: seq<MonthRow> := [
    MonthRow("Jan", 35000, 28000, 7000, 85),
    MonthRow("Feb", 38000, 30000, 8000, 88),
    MonthRow("Mar", 42000, 32000, 10000, 92),
    MonthRow("Apr", 45000, 35000, 10000, 89),
    MonthRow("May", 48000, 36000, 12000, 94),
    MonthRow("Jun", 45230, 34000, 11230, 87)
  ]

  const ExpenseBreakdown: seq<ExpenseShare> := [
    ExpenseShare("Maintenance", 35, 11900),
    ExpenseShare("Utilities", 25, 8500),
    ExpenseShare("Salaries", 30, 10200),
    ExpenseShare("Supplies", 10, 3400)
  ]

  const OccupancyByHostel: seq<OccupancyRow> := [
    OccupancyRow("Downtown", 95, 50, 47),
    OccupancyRow("University", 88, 80, 70),
    OccupancyRow("City Center", 92, 60, 55),
    OccupancyRow("Riverside", 75, 40, 30),
    OccupancyRow("Metro", 83, 70, 58)
  ]

  const RevenueByHostel: seq<RevenueRow> := [
    RevenueRow("Downtown", 15750, 25),
    RevenueRow("University", 21000, 33),
    RevenueRow("City Center", 19800, 31),
    RevenueRow("Riverside", 9000, 14),
    RevenueRow("Metro", 17400, 27)
  ]

  const KpiData := Kpi(82950, 34000, 48950, 59, 87, 260, 15)

  // ----- performance tier -----

  datatype Tier = Excellent | Good | NeedsAttention

  /** The tier rule: above 90 percent excellent, above 80 good, else needs
      attention. */
  function TierOf(occupancy: int): (t: Tier)
    ensures t == Excellent <==> occupancy > 90
    ensures t == Good <==> 80 < occupancy <= 90
    ensures t == NeedsAttention <==> occupancy <= 80
  {
    if occupancy > 90 then Excellent else if occupancy > 80 then Good else NeedsAttention
  }

  /** The badge text, a chain of conditionals of its own. */
  function PerformanceLabel(occupancy: int): string
  {
    if occupancy > 90 then "Excellent" else if occupancy > 80 then "Good" else "Needs Attention"
  }

  /** The badge colour, a second chain of conditionals over the same value. */
  function PerformanceBadge(occupancy: int): string
  {
    if occupancy > 90 then "bg-green-100 text-green-800"
    else if occupancy > 80 then "bg-yellow-100 text-yellow-800"
    else "bg-red-100 text-red-800"
  }

  function TierLabel(t: Tier): string
  {
    match t
    case Excellent => "Excellent"
    case Good => "Good"
    case NeedsAttention => "Needs Attention"
  }

  function TierBadge(t: Tier): string
  {
    match t
    case Excellent => "bg-green-100 text-green-800"
    case Good => "bg-yellow-100 text-yellow-800"
    case NeedsAttention => "bg-red-100 text-red-800"
  }

  /** The two conditional chains classify alike: the label and the colour
      always name the same tier, so a green badge always reads "Excellent",
      a yellow one "Good" and a red one "Needs Attention". */
  lemma LabelAndBadgeAgree(occupancy: int)
    ensures PerformanceLabel(occupancy) == TierLabel(TierOf(occupancy))
    ensures PerformanceBadge(occupancy) == TierBadge(TierOf(occupancy))
    ensures PerformanceLabel(occupancy) == "Excellent" <==>
            PerformanceBadge(occupancy) == "bg-green-100 text-green-800"
    ensures PerformanceLabel(occupancy) == "Good" <==>
            PerformanceBadge(occupancy) == "bg-yellow-100 text-yellow-800"
    ensures PerformanceLabel(occupancy) == "Needs Attention" <==>
            PerformanceBadge(occupancy) == "bg-red-100 text-red-800"
  {
    assert "bg-green-100 text-green-800"[3] != "bg-yellow-100 text-yellow-800"[3];
    assert "bg-green-100 text-green-800"[3] != "bg-red-100 text-red-800"[3];
    assert "bg-yellow-100 text-yellow-800"[3] != "bg-red-100 text-red-800"[3];
    assert "Excellent"[0] != "Good"[0] && "Good"[0] != "Needs Attention"[0];
    assert "Excellent"[0] != "Needs Attention"[0];
  }

  /** A higher occupancy never gets a worse tier. */
  lemma TierMonotone(a: int, b: int)
    requires a <= b
    ensures TierOf(a) == Excellent ==> TierOf(b) == Excellent
    ensures TierOf(b) == NeedsAttention ==> TierOf(a) == NeedsAttention
  {
  }

  // ----- average rent -----

  /** `Math.round(revenueByHostel[index]?.revenue / hostel.occupied)`, rows
      paired by position. A missing revenue row (`undefined / n`) or an
      empty hostel (`n / 0`) gives no number. */
  function AverageRent(occ: seq<OccupancyRow>, rev: seq<RevenueRow>, i: int): (r: Option<int>)
    requires 0 <= i < |occ|
    ensures r.Some? <==> i < |rev| && occ[i].occupied != 0
    ensures r.Some? && occ[i].occupied > 0 ==>
      -occ[i].occupied <= 2 * (rev[i].revenue - occ[i].occupied * r.value) < occ[i].occupied
  {
    if i < |rev| then JsMath.RoundQuotient(rev[i].revenue, occ[i].occupied) else None
  }

  /** Splitting a hostel's revenue evenly over its occupants gives the
      average rent exactly when the revenue is a multiple of the occupants. */
  lemma AverageRentExact(occ: seq<OccupancyRow>, rev: seq<RevenueRow>, i: int, rent: int)
    requires 0 <= i < |occ| && i < |rev| && occ[i].occupied > 0
    requires rev[i].revenue == rent * occ[i].occupied
    ensures AverageRent(occ, rev, i) == Some(rent)
  {
    JsMath.RoundQuotientUnique(rev[i].revenue, occ[i].occupied, rent);
  }

  /** The table's two constant lists line up, so every row has an average
      rent: 335, 300, 360, 300 and 300. */
  lemma TableAverageRents()
    ensures |OccupancyByHostel| == |RevenueByHostel|
    ensures forall i :: 0 <= i < |OccupancyByHostel| ==> OccupancyByHostel[i].name == RevenueByHostel[i].name
    ensures AverageRent(OccupancyByHostel, RevenueByHostel, 0) == Some(335)
    ensures AverageRent(OccupancyByHostel, RevenueByHostel, 1) == Some(300)
    ensures AverageRent(OccupancyByHostel, RevenueByHostel, 2) == Some(360)
    ensures AverageRent(OccupancyByHostel, RevenueByHostel, 3) == Some(300)
    ensures AverageRent(OccupancyByHostel, RevenueByHostel, 4) == Some(300)
  {
    JsMath.RoundQuotientUnique(15750, 47, 335);
    JsMath.RoundQuotientUnique(21000, 70, 300);
    JsMath.RoundQuotientUnique(19800, 55, 360);
    JsMath.RoundQuotientUnique(9000, 30, 300);
    JsMath.RoundQuotientUnique(17400, 58, 300);
  }

  // ----- PKR display -----

  const PkrPerDollar := 280

  /** `(amount * 280)`: the PKR figure shown for a dollar amount. */
  function Pkr(amount: int): (p: int)
    ensures amount >= 0 ==> p >= amount
    ensures p % PkrPerDollar == 0
  {
    amount * PkrPerDollar
  }

  /** The conversion is linear and order-preserving with 280 rupees to the
      dollar, so the PKR net profit is the PKR revenue less the PKR expenses
      whenever the dollar figures are consistent. */
  lemma PkrLinear(a: int, b: int)
    ensures Pkr(1) == PkrPerDollar
    ensures Pkr(a - b) == Pkr(a) - Pkr(b)
    ensures a <= b ==> Pkr(a) <= Pkr(b)
  {
  }

  /** The cards show PKR 23,226,000 revenue and PKR 13,706,000 net profit,
      and the dollar figures behind them agree: net profit is revenue less
      expenses, and the margin card is the rounded percentage of the two. */
  lemma KpiCardsConsistent()
    ensures Pkr(KpiData.totalRevenue) == 23226000
    ensures Pkr(KpiData.netProfit) == 13706000
    ensures KpiData.netProfit == KpiData.totalRevenue - KpiData.totalExpenses
    ensures Pkr(KpiData.netProfit) == Pkr(KpiData.totalRevenue) - Pkr(KpiData.totalExpenses)
    ensures JsMath.Percent(KpiData.netProfit, KpiData.totalRevenue) == Some(KpiData.profitMargin)
  {
    PkrLinear(KpiData.totalRevenue, KpiData.totalExpenses);
    JsMath.RoundQuotientUnique(4895000, 82950, 59);
  }

  // ----- table consistency -----

  /** In every month of the financial table, profit is income less
      expenses. */
  lemma MonthlyProfitIsIncomeLessExpenses()
    ensures forall i :: 0 <= i < |MonthlyFinancialData| ==>
      MonthlyFinancialData[i].profit == MonthlyFinancialData[i].income - MonthlyFinancialData[i].expenses
  {
  }

  /** The expense shares add up to 100 percent, their amounts to the total
      expenses card, and each amount is its share of that total. */
  lemma ExpenseSharesConsistent()
    ensures SumOf(ExpenseBreakdown, (e: ExpenseShare) => e.value) == 100
    ensures SumOf(ExpenseBreakdown, (e: ExpenseShare) => e.amount) == KpiData.totalExpenses
    ensures forall i :: 0 <= i < |ExpenseBreakdown| ==>
      100 * ExpenseBreakdown[i].amount == ExpenseBreakdown[i].value * KpiData.totalExpenses
  {
    var s := ExpenseBreakdown;
    assert s[1..][1..][1..][1..] == [];
  }

  /** The occupancy figures agree with one another: the occupied counts add
      up to the tenants card, and the stated average occupancy is both the
      rounded mean of the per-hostel percentages and the rounded percentage
      of all places taken. The per-hostel percentages match occupied over
      capacity except Downtown's, which states 95 where 47 of 50 is 94. */
  lemma OccupancyFiguresConsistent()
    ensures SumOf(OccupancyByHostel, (h: OccupancyRow) => h.occupied) == KpiData.totalTenants
    ensures JsMath.RoundQuotient(SumOf(OccupancyByHostel, (h: OccupancyRow) => h.occupancy),
                                 |OccupancyByHostel|) == Some(KpiData.averageOccupancy)
    ensures JsMath.Percent(SumOf(OccupancyByHostel, (h: OccupancyRow) => h.occupied),
                           SumOf(OccupancyByHostel, (h: OccupancyRow) => h.capacity)) == Some(KpiData.averageOccupancy)
    ensures forall i :: 1 <= i < |OccupancyByHostel| ==>
      JsMath.Percent(OccupancyByHostel[i].occupied, OccupancyByHostel[i].capacity) == Some(OccupancyByHostel[i].occupancy)
    ensures JsMath.Percent(47, 50) == Some(94) && OccupancyByHostel[0].occupancy == 95
  {
    var s := OccupancyByHostel;
    assert s[1..][1..][1..][1..][1..] == [];
    JsMath.RoundQuotientUnique(433, 5, 87);
    JsMath.RoundQuotientUnique(26000, 300, 87);
    JsMath.RoundQuotientUnique(7000, 80, 88);
    JsMath.RoundQuotientUnique(5500, 60, 92);
    JsMath.RoundQuotientUnique(3000, 40, 75);
    JsMath.RoundQuotientUnique(5800, 70, 83);
    JsMath.RoundQuotientUnique(4700, 50, 94);
  }

  /** The revenue rows add up to the revenue card, but their percentage
      column adds up to 130, not 100. */
  lemma RevenueFigures()
    ensures SumOf(RevenueByHostel, (r: RevenueRow) => r.revenue) == KpiData.totalRevenue
    ensures SumOf(RevenueByHostel, (r: RevenueRow) => r.percentage) == 130
  {
    var s := RevenueByHostel;
    assert s[1..][1..][1..][1..][1..] == [];
  }
}
