/**
  Fund-level return aggregation of the returns dashboard: for one fund, the
  amount invested, the cash realized through exits and dividends, the latest
  unrealized holding value of every portfolio company, their total, the
  multiple on invested capital (MOIC) and the internal rate of return (IRR) of
  the fund's dated cash-flow timeline.

  Dates are day numbers, money is exact `real`, nullable columns are `Option`.
  The IRR root finder is a parameter (`solve`), and so is today's date.
 */
module InvestmentReturns {
  import opened Options

  /** A calendar date as a day number; day d + 1 is the day after d. */
  type Day = int

  /** A row of the investments table: the fund's cash outflow into a company. */
  datatype Investment = Investment(fund: string, company: string, date: Day, size: real)

  /** The event types allowed by the events table. */
  datatype EventKind = Exit | Dividend | ValuationUpdate

  /** A row of the events table; the cash flow and the post-event holding valuation may be null. */
  datatype Event = Event(company: string, date: Day, kind: EventKind, cashFlow: Option<real>, valuation: Option<real>)

  /** One entry of the IRR timeline. */
  datatype CashFlow = CashFlow(date: Day, amount: real)

  /** What the IRR solver can give back: a finite rate, NaN, an infinity, or a raised ValueError. */
  datatype SolverOutcome = Rate(rate: real) | NaN | Infinite | ValueError

  /** The result record of one fund; MOIC and IRR are nullable. */
  datatype FundResult = FundResult(
    fund: string,
    totalInvested: real,
    totalRealized: real,
    totalUnrealized: real,
    totalValue: real,
    moic: Option<real>,
    irr: Option<real>)

  // ---------------------------------------------------------------------------
  // Investments of the fund.

  /** The investment rows whose fund is exactly `fund`, in input order. */
  function FundInvestments(fund: string, investments: seq<Investment>): (r: seq<Investment>)
    ensures |r| <= |investments|
    ensures r == [] <==> forall k :: 0 <= k < |investments| ==> investments[k].fund != fund
  {
    if investments == [] then []
    else
      var n := |investments| - 1;
      var prefix := FundInvestments(fund, investments[..n]);
      assert forall k :: 0 <= k < n ==> investments[..n][k] == investments[k];
      if investments[n].fund == fund then prefix + [investments[n]] else prefix
  }

  /** Exactly the rows of the fund are kept. */
  lemma {:induction false} FundInvestmentsMembers(fund: string, investments: seq<Investment>, x: Investment)
    ensures x in FundInvestments(fund, investments) <==> x in investments && x.fund == fund
  {
    if investments != [] {
      var n := |investments| - 1;
      assert investments == investments[..n] + [investments[n]];
      FundInvestmentsMembers(fund, investments[..n], x);
    }
  }

  /** The filter works row by row: a single row is kept iff its fund matches, and the rows of a
      concatenation are filtered part by part, so order and repetitions are kept. */
  lemma {:induction false} FundInvestmentsAppend(fund: string, a: seq<Investment>, b: seq<Investment>)
    ensures |a| == 1 ==> FundInvestments(fund, a) == (if a[0].fund == fund then a else [])
    ensures FundInvestments(fund, a + b) == FundInvestments(fund, a) + FundInvestments(fund, b)
  {
    if |a| == 1 {
      assert a[..0] == [];
    }
    if b == [] {
      assert a + b == a;
    } else {
      var n := |b| - 1;
      FundInvestmentsAppend(fund, a, b[..n]);
      assert (a + b)[..|a + b| - 1] == a + b[..n];
      assert (a + b)[|a + b| - 1] == b[n];
    }
  }

  /** Sum of the investment sizes (the pandas column sum). */
  function SumSizes(xs: seq<Investment>): (r: real)
    ensures (forall k :: 0 <= k < |xs| ==> xs[k].size >= 0.0) ==> r >= 0.0
    ensures (forall k :: 0 <= k < |xs| ==> xs[k].size > 0.0) && xs != [] ==> r > 0.0
  {
    if xs == [] then 0.0 else SumSizes(xs[..|xs| - 1]) + xs[|xs| - 1].size
  }

  /** Reference definition: every row adds its size when its fund matches, and nothing otherwise. */
  function InvestedBy(fund: string, investments: seq<Investment>): real {
    if investments == [] then 0.0
    else
      var last := investments[|investments| - 1];
      InvestedBy(fund, investments[..|investments| - 1]) + (if last.fund == fund then last.size else 0.0)
  }

  lemma {:induction false} TotalInvestedIsFundSum(fund: string, investments: seq<Investment>)
    ensures SumSizes(FundInvestments(fund, investments)) == InvestedBy(fund, investments)
  {
    if investments != [] {
      var n := |investments| - 1;
      TotalInvestedIsFundSum(fund, investments[..n]);
      var prefix := FundInvestments(fund, investments[..n]);
      if investments[n].fund == fund {
        assert (prefix + [investments[n]])[..|prefix|] == prefix;
      }
    }
  }

  /** One outflow entry (date, -size) per investment row, in the same order. */
  function InvestmentFlows(xs: seq<Investment>): (r: seq<CashFlow>)
    ensures |r| == |xs|
    ensures forall k :: 0 <= k < |r| ==> r[k] == CashFlow(xs[k].date, -xs[k].size)
  {
    if xs == [] then []
    else InvestmentFlows(xs[..|xs| - 1]) + [CashFlow(xs[|xs| - 1].date, -xs[|xs| - 1].size)]
  }

  predicate InvestedIn(xs: seq<Investment>, company: string) {
    exists k :: 0 <= k < |xs| && xs[k].company == company
  }

  /** The distinct companies of the rows, in order of first appearance (pandas unique()). */
  function DistinctCompanies(xs: seq<Investment>): (r: seq<string>)
    ensures forall i, j :: 0 <= i < j < |r| ==> r[i] != r[j]
    ensures forall c :: c in r <==> InvestedIn(xs, c)
  {
    if xs == [] then []
    else
      var n := |xs| - 1;
      var prefix := DistinctCompanies(xs[..n]);
      assert forall c :: InvestedIn(xs, c) <==> InvestedIn(xs[..n], c) || xs[n].company == c by {
        forall c ensures InvestedIn(xs, c) <==> InvestedIn(xs[..n], c) || xs[n].company == c {
          if InvestedIn(xs, c) {
            var k :| 0 <= k < |xs| && xs[k].company == c;
            if k < n { assert xs[..n][k] == xs[k]; }
          }
          if InvestedIn(xs[..n], c) {
            var k :| 0 <= k < n && xs[..n][k].company == c;
            assert xs[k] == xs[..n][k];
          }
        }
      }
      if xs[n].company in prefix then prefix else prefix + [xs[n].company]
  }

  // ---------------------------------------------------------------------------
  // Events of the fund's companies, and realized cash.

  /** The event rows whose company is one of `companies` (pandas isin), in input order. */
  function FundEvents(events: seq<Event>, companies: seq<string>): (r: seq<Event>)
    ensures |r| <= |events|
    ensures forall k :: 0 <= k < |r| ==> r[k].company in companies
  {
    if events == [] then []
    else
      var n := |events| - 1;
      var prefix := FundEvents(events[..n], companies);
      if events[n].company in companies then prefix + [events[n]] else prefix
  }

  /** Exactly the events of the listed companies are kept. */
  lemma {:induction false} FundEventsMembers(events: seq<Event>, companies: seq<string>, e: Event)
    ensures e in FundEvents(events, companies) <==> e in events && e.company in companies
  {
    if events != [] {
      var n := |events| - 1;
      assert events == events[..n] + [events[n]];
      FundEventsMembers(events[..n], companies, e);
    }
  }

  /** The filter works row by row: a single event is kept iff its company is listed, and a
      concatenation is filtered part by part, so order and repetitions are kept. */
  lemma {:induction false} FundEventsAppend(a: seq<Event>, b: seq<Event>, companies: seq<string>)
    ensures |a| == 1 ==> FundEvents(a, companies) == (if a[0].company in companies then a else [])
    ensures FundEvents(a + b, companies) == FundEvents(a, companies) + FundEvents(b, companies)
  {
    if |a| == 1 {
      assert a[..0] == [];
    }
    if b == [] {
      assert a + b == a;
    } else {
      var n := |b| - 1;
      FundEventsAppend(a, b[..n], companies);
      assert (a + b)[..|a + b| - 1] == a + b[..n];
      assert (a + b)[|a + b| - 1] == b[n];
    }
  }

  predicate IsRealizing(kind: EventKind) {
    kind == Exit || kind == Dividend
  }

  /** The `Exit` and `Dividend` rows, in input order. */
  function RealizedEvents(events: seq<Event>): (r: seq<Event>)
    ensures |r| <= |events|
    ensures forall k :: 0 <= k < |r| ==> IsRealizing(r[k].kind)
  {
    if events == [] then []
    else
      var n := |events| - 1;
      var prefix := RealizedEvents(events[..n]);
      if IsRealizing(events[n].kind) then prefix + [events[n]] else prefix
  }

  /** Exactly the exits and dividends are kept; valuation updates never are. */
  lemma {:induction false} RealizedEventsMembers(events: seq<Event>, e: Event)
    ensures e in RealizedEvents(events) <==> e in events && e.kind != ValuationUpdate
  {
    if events != [] {
      var n := |events| - 1;
      assert events == events[..n] + [events[n]];
      RealizedEventsMembers(events[..n], e);
    }
  }

  /** The filter works row by row: a single event is kept iff it is an exit or a dividend, and a
      concatenation is filtered part by part, so order and repetitions are kept. */
  lemma {:induction false} RealizedEventsAppend(a: seq<Event>, b: seq<Event>)
    ensures |a| == 1 ==> RealizedEvents(a) == (if IsRealizing(a[0].kind) then a else [])
    ensures RealizedEvents(a + b) == RealizedEvents(a) + RealizedEvents(b)
  {
    if |a| == 1 {
      assert a[..0] == [];
    }
    if b == [] {
      assert a + b == a;
    } else {
      var n := |b| - 1;
      RealizedEventsAppend(a, b[..n]);
      assert (a + b)[..|a + b| - 1] == a + b[..n];
      assert (a + b)[|a + b| - 1] == b[n];
    }
  }

  /** Sum of the cash-flow column, skipping nulls (the pandas column sum): an all-null column
      sums to 0. */
  function SumCash(events: seq<Event>): (r: real)
    ensures (forall k :: 0 <= k < |events| ==> events[k].cashFlow.None?) ==> r == 0.0
    ensures (forall k :: 0 <= k < |events| && events[k].cashFlow.Some? ==> events[k].cashFlow.value >= 0.0) ==> r >= 0.0
  {
    if events == [] then 0.0
    else
      var last := events[|events| - 1];
      SumCash(events[..|events| - 1]) + (match last.cashFlow case Some(v) => v case None => 0.0)
  }

  /** Reference definition of realized cash: every event adds its cash flow when its company is
      one of `companies`, it is an exit or a dividend, and the cash flow is not null. */
  function RealizedBy(companies: seq<string>, events: seq<Event>): real {
    if events == [] then 0.0
    else
      var e := events[|events| - 1];
      RealizedBy(companies, events[..|events| - 1])
        + (if e.company in companies && IsRealizing(e.kind) && e.cashFlow.Some? then e.cashFlow.value else 0.0)
  }

  lemma {:induction false} TotalRealizedIsFundSum(companies: seq<string>, events: seq<Event>)
    ensures SumCash(RealizedEvents(FundEvents(events, companies))) == RealizedBy(companies, events)
  {
    if events != [] {
      var n := |events| - 1;
      TotalRealizedIsFundSum(companies, events[..n]);
      var fe := FundEvents(events[..n], companies);
      var re := RealizedEvents(fe);
      if events[n].company in companies {
        assert (fe + [events[n]])[..|fe|] == fe;
        if IsRealizing(events[n].kind) {
          assert (re + [events[n]])[..|re|] == re;
        }
      }
    }
  }

  /** One inflow entry (date, cash) per event with a non-null cash flow, in the same order. */
  function RealizedFlows(events: seq<Event>): (r: seq<CashFlow>)
    ensures |r| <= |events|
    ensures (forall k :: 0 <= k < |events| ==> events[k].cashFlow.Some?) ==> |r| == |events|
  {
    if events == [] then []
    else
      var last := events[|events| - 1];
      var prefix := RealizedFlows(events[..|events| - 1]);
      if last.cashFlow.Some? then prefix + [CashFlow(last.date, last.cashFlow.value)] else prefix
  }

  /** Entry by entry: a single event adds (date, cash) iff its cash flow is not null, and the
      entries of a concatenation are those of its parts, in order. */
  lemma {:induction false} RealizedFlowsAppend(a: seq<Event>, b: seq<Event>)
    ensures |a| == 1 ==>
      (RealizedFlows(a) == if a[0].cashFlow.Some? then [CashFlow(a[0].date, a[0].cashFlow.value)] else [])
    ensures RealizedFlows(a + b) == RealizedFlows(a) + RealizedFlows(b)
  {
    if |a| == 1 {
      assert a[..0] == [];
    }
    if b == [] {
      assert a + b == a;
    } else {
      var n := |b| - 1;
      RealizedFlowsAppend(a, b[..n]);
      assert (a + b)[..|a + b| - 1] == a + b[..n];
      assert (a + b)[|a + b| - 1] == b[n];
    }
  }

  // ---------------------------------------------------------------------------
  // Latest valuation per company.

  /** The position of the company's event with the greatest date; on a tie the first such row
      (pandas idxmax). None when the company has no event. */
  function LatestIndex(events: seq<Event>, company: string): (r: Option<nat>)
    ensures r.None? <==> forall k :: 0 <= k < |events| ==> events[k].company != company
    ensures r.Some? ==>
      && r.value < |events|
      && events[r.value].company == company
      && (forall k :: 0 <= k < |events| && events[k].company == company ==> events[k].date <= events[r.value].date)
      && (forall k :: 0 <= k < r.value && events[k].company == company ==> events[k].date < events[r.value].date)
  {
    if events == [] then None
    else
      var n := |events| - 1;
      var p := LatestIndex(events[..n], company);
      assert forall k :: 0 <= k < n ==> events[..n][k] == events[k];
      if events[n].company != company then p
      else match p
        case None => Some(n)
        case Some(k) => if events[n].date > events[k].date then Some(n) else Some(k)
  }

  /** The set of companies that have at least one event. */
  function EventCompanies(events: seq<Event>): set<string> {
    set k | 0 <= k < |events| :: events[k].company
  }

  /** Company -> holding valuation (possibly null) of its latest event. */
  function LatestValuations(events: seq<Event>): (m: map<string, Option<real>>)
    ensures forall c :: c in m <==> LatestIndex(events, c).Some?
    ensures forall c :: c in m ==> m[c] == events[LatestIndex(events, c).value].valuation
  {
    map c | c in EventCompanies(events) :: events[LatestIndex(events, c).value].valuation
  }

  /** The company's latest event, if it has any. */
  function LatestEvent(events: seq<Event>, company: string): Option<Event> {
    match LatestIndex(events, company)
    case None => None
    case Some(k) => Some(events[k])
  }

  /** A company's unrealized value: the valuation of its latest event, 0 when that valuation is
      null or the company has no event. */
  function CompanyValue(events: seq<Event>, company: string): (v: real)
    ensures (forall k :: 0 <= k < |events| ==> events[k].company != company) ==> v == 0.0
    ensures v != 0.0 ==>
      exists k :: (0 <= k < |events| && events[k].company == company
        && events[k].valuation == Some(v)
        && (forall j :: 0 <= j < |events| && events[j].company == company ==> events[j].date <= events[k].date))
    ensures LatestIndex(events, company).Some? ==>
      v == (match events[LatestIndex(events, company).value].valuation case Some(x) => x case None => 0.0)
  {
    match LatestEvent(events, company)
    case None => 0.0
    case Some(e) => (match e.valuation case Some(x) => x case None => 0.0)
  }

  /** The latest event after appending one row: the new row wins only when it belongs to the
      company and is strictly later than the previous latest event. */
  lemma LatestEventSnoc(xs: seq<Event>, e: Event, company: string)
    ensures LatestEvent(xs + [e], company) ==
      if e.company != company then LatestEvent(xs, company)
      else match LatestEvent(xs, company)
        case None => Some(e)
        case Some(l) => if e.date > l.date then Some(e) else Some(l)
  {
    assert (xs + [e])[..|xs|] == xs;
  }

  /** Keeping only the events of the fund's companies does not change any of those companies'
      latest event. */
  lemma {:induction false} LatestEventOfFundEvents(events: seq<Event>, companies: seq<string>, company: string)
    requires company in companies
    ensures LatestEvent(FundEvents(events, companies), company) == LatestEvent(events, company)
  {
    if events != [] {
      var n := |events| - 1;
      var e := events[n];
      LatestEventOfFundEvents(events[..n], companies, company);
      assert events == events[..n] + [e];
      LatestEventSnoc(events[..n], e, company);
      if e.company in companies {
        LatestEventSnoc(FundEvents(events[..n], companies), e, company);
      }
    }
  }

  /** Looking a company up in the latest-valuation table, with 0 for a missing key or a null
      value, gives its CompanyValue. */
  lemma LookupIsCompanyValue(events: seq<Event>, latest: map<string, Option<real>>, company: string)
    requires latest == (if events != [] then LatestValuations(events) else map[])
    ensures var found := if company in latest then latest[company] else Some(0.0);
      (if found.Some? then found.value else 0.0) == CompanyValue(events, company)
  {
  }

  /** Sum of CompanyValue over the listed companies. */
  function UnrealizedSum(events: seq<Event>, companies: seq<string>): real {
    if companies == [] then 0.0
    else UnrealizedSum(events, companies[..|companies| - 1]) + CompanyValue(events, companies[|companies| - 1])
  }

  /** Two rows of one company on the same date: the first one's valuation is taken. */
  lemma TieKeepsFirst(first: Event, second: Event, v: real)
    requires first.company == second.company && first.date == second.date
    requires first.valuation == Some(v)
    ensures CompanyValue([first, second], first.company) == v
  {
    assert [first][..0] == [];
    assert LatestIndex([first], first.company) == Some(0);
    assert [first, second][..1] == [first];
  }

  /** A null valuation on the latest row counts as 0, even when an earlier row has a valuation. */
  lemma NullLatestCountsZero(earlier: Event, later: Event)
    requires earlier.company == later.company && earlier.date < later.date
    requires later.valuation == None
    ensures CompanyValue([earlier, later], later.company) == 0.0
  {
    assert [earlier][..0] == [];
    assert LatestIndex([earlier], later.company) == Some(0);
    assert [earlier, later][..1] == [earlier];
  }

  lemma {:induction false} UnrealizedSumOfFundEvents(events: seq<Event>, companies: seq<string>, listed: seq<string>)
    requires forall k :: 0 <= k < |listed| ==> listed[k] in companies
    ensures UnrealizedSum(FundEvents(events, companies), listed) == UnrealizedSum(events, listed)
  {
    if listed != [] {
      var n := |listed| - 1;
      UnrealizedSumOfFundEvents(events, companies, listed[..n]);
      LatestEventOfFundEvents(events, companies, listed[n]);
    }
  }

  /** Total Unrealized is the sum, over the fund's distinct companies, of the latest valuation
      among ALL events of that company. */
  lemma TotalUnrealizedOverAllEvents(fund: string, investments: seq<Investment>, events: seq<Event>)
    ensures TotalUnrealized(fund, investments, events) == UnrealizedSum(events, FundCompanies(fund, investments))
  {
    var companies := FundCompanies(fund, investments);
    UnrealizedSumOfFundEvents(events, companies, companies);
  }

  lemma UnrealizedSumStep(events: seq<Event>, companies: seq<string>, i: nat)
    requires i < |companies|
    ensures UnrealizedSum(events, companies[..i + 1]) == UnrealizedSum(events, companies[..i]) + CompanyValue(events, companies[i])
  {
    assert companies[..i + 1][..i] == companies[..i];
  }

  // ---------------------------------------------------------------------------
  // The cash-flow timeline.

  function SumAmounts(flows: seq<CashFlow>): real {
    if flows == [] then 0.0 else flows[0].amount + SumAmounts(flows[1..])
  }

  lemma {:induction false} SumAmountsAppend(a: seq<CashFlow>, b: seq<CashFlow>)
    ensures SumAmounts(a + b) == SumAmounts(a) + SumAmounts(b)
  {
    if a != [] {
      SumAmountsAppend(a[1..], b);
      assert (a + b)[1..] == a[1..] + b;
    } else {
      assert a + b == b;
    }
  }

  lemma {:induction false} InvestmentFlowsSum(xs: seq<Investment>)
    ensures SumAmounts(InvestmentFlows(xs)) == -SumSizes(xs)
  {
    if xs != [] {
      var n := |xs| - 1;
      InvestmentFlowsSum(xs[..n]);
      SumAmountsAppend(InvestmentFlows(xs[..n]), [CashFlow(xs[n].date, -xs[n].size)]);
    }
  }

  /** The inflow entries add up to the realized total: null cash flows add no entry and count 0. */
  lemma {:induction false} RealizedFlowsSum(events: seq<Event>)
    ensures SumAmounts(RealizedFlows(events)) == SumCash(events)
  {
    if events != [] {
      var n := |events| - 1;
      RealizedFlowsSum(events[..n]);
      if events[n].cashFlow.Some? {
        SumAmountsAppend(RealizedFlows(events[..n]), [CashFlow(events[n].date, events[n].cashFlow.value)]);
      }
    }
  }

  /** The latest date of a non-empty timeline (Python max). */
  function MaxDate(flows: seq<CashFlow>): (m: Day)
    requires flows != []
    ensures forall k :: 0 <= k < |flows| ==> flows[k].date <= m
    ensures exists k :: 0 <= k < |flows| && flows[k].date == m
  {
    if |flows| == 1 then flows[0].date
    else
      var rest := MaxDate(flows[1..]);
      assert forall k :: 1 <= k < |flows| ==> flows[k] == flows[1..][k - 1];
      if flows[0].date > rest then flows[0].date else rest
  }

  /** The date of the terminal unrealized entry: today when today is after every entry,
      otherwise the day after the latest entry. */
  function TerminalDate(flows: seq<CashFlow>, today: Day): (d: Day)
    ensures forall k :: 0 <= k < |flows| ==> flows[k].date < d
    ensures today <= d
    ensures (forall k :: 0 <= k < |flows| ==> flows[k].date < today) ==> d == today
    ensures (exists k :: 0 <= k < |flows| && today <= flows[k].date) ==> d == MaxDate(flows) + 1
  {
    var last := if flows != [] then MaxDate(flows) else today - 1;
    if today > last then today else last + 1
  }

  /** The timeline before sorting: the terminal entry is appended when unrealized > 0. */
  function Finalize(flows: seq<CashFlow>, unrealized: real, today: Day): (r: seq<CashFlow>)
    ensures unrealized <= 0.0 ==> r == flows
    ensures unrealized > 0.0 ==>
      && |r| == |flows| + 1
      && r[..|flows|] == flows
      && r[|flows|].amount == unrealized
      && today <= r[|flows|].date
      && (forall k :: 0 <= k < |flows| ==> flows[k].date < r[|flows|].date)
  {
    if unrealized > 0.0 then flows + [CashFlow(TerminalDate(flows, today), unrealized)] else flows
  }

  /** Every entry is dated no earlier than the one before it. */
  predicate SortedByDate(flows: seq<CashFlow>) {
    forall i :: 0 < i < |flows| ==> flows[i - 1].date <= flows[i].date
  }

  /** Inserts x before the first entry whose date is not earlier than x's. */
  function Insert(x: CashFlow, flows: seq<CashFlow>): (r: seq<CashFlow>)
    ensures |r| == |flows| + 1
    ensures multiset(r) == multiset(flows) + multiset{x}
    ensures r[0] == x || (flows != [] && r[0] == flows[0])
  {
    if flows == [] || x.date <= flows[0].date then [x] + flows
    else
      var rest := Insert(x, flows[1..]);
      assert flows == [flows[0]] + flows[1..];
      [flows[0]] + rest
  }

  lemma {:induction false} InsertKeepsSorted(x: CashFlow, flows: seq<CashFlow>)
    requires SortedByDate(flows)
    ensures SortedByDate(Insert(x, flows))
  {
    if !(flows == [] || x.date <= flows[0].date) {
      var rest := Insert(x, flows[1..]);
      InsertKeepsSorted(x, flows[1..]);
      assert flows[0].date <= rest[0].date;
      var r := [flows[0]] + rest;
      assert forall i :: 0 <= i < |rest| ==> r[i + 1] == rest[i];
    }
  }

  /** The stable sort by date of list.sort(key=date). */
  function SortByDate(flows: seq<CashFlow>): (r: seq<CashFlow>)
    ensures |r| == |flows|
    ensures multiset(r) == multiset(flows)
    ensures SortedByDate(r)
  {
    if flows == [] then []
    else
      assert flows == [flows[0]] + flows[1..];
      InsertKeepsSorted(flows[0], SortByDate(flows[1..]));
      Insert(flows[0], SortByDate(flows[1..]))
  }

  /** The entries of one date, in order. */
  function AtDate(flows: seq<CashFlow>, d: Day): seq<CashFlow> {
    if flows == [] then []
    else (if flows[0].date == d then [flows[0]] else []) + AtDate(flows[1..], d)
  }

  lemma {:induction false} InsertAtDate(x: CashFlow, flows: seq<CashFlow>, d: Day)
    ensures AtDate(Insert(x, flows), d) == (if x.date == d then [x] else []) + AtDate(flows, d)
  {
    if flows == [] || x.date <= flows[0].date {
      assert ([x] + flows)[1..] == flows;
    } else {
      InsertAtDate(x, flows[1..], d);
      var rest := Insert(x, flows[1..]);
      assert Insert(x, flows) == [flows[0]] + rest;
      assert ([flows[0]] + rest)[1..] == rest;
      assert AtDate(flows, d) == (if flows[0].date == d then [flows[0]] else []) + AtDate(flows[1..], d);
      if x.date == d {
        assert flows[0].date != d;
      }
    }
  }

  /** Stability: the entries of any one date keep their relative order. */
  lemma {:induction false} SortKeepsSameDateOrder(flows: seq<CashFlow>, d: Day)
    ensures AtDate(SortByDate(flows), d) == AtDate(flows, d)
  {
    if flows != [] {
      SortKeepsSameDateOrder(flows[1..], d);
      InsertAtDate(flows[0], SortByDate(flows[1..]), d);
    }
  }

  lemma {:induction false} InsertKeepsSum(x: CashFlow, flows: seq<CashFlow>)
    ensures SumAmounts(Insert(x, flows)) == x.amount + SumAmounts(flows)
  {
    if !(flows == [] || x.date <= flows[0].date) {
      InsertKeepsSum(x, flows[1..]);
      var rest := Insert(x, flows[1..]);
      assert ([flows[0]] + rest)[1..] == rest;
    } else {
      assert ([x] + flows)[1..] == flows;
    }
  }

  lemma {:induction false} SortKeepsSum(flows: seq<CashFlow>)
    ensures SumAmounts(SortByDate(flows)) == SumAmounts(flows)
  {
    if flows != [] {
      SortKeepsSum(flows[1..]);
      InsertKeepsSum(flows[0], SortByDate(flows[1..]));
    }
  }

  lemma {:induction false} InsertBeforeLater(x: CashFlow, flows: seq<CashFlow>, t: CashFlow)
    requires x.date < t.date
    ensures Insert(x, flows + [t]) == Insert(x, flows) + [t]
  {
    if flows == [] {
      assert [] + [t] == [t];
    } else if x.date <= flows[0].date {
      assert (flows + [t])[0] == flows[0];
    } else {
      assert (flows + [t])[0] == flows[0] && (flows + [t])[1..] == flows[1..] + [t];
      InsertBeforeLater(x, flows[1..], t);
    }
  }

  /** An entry dated after every other one sorts to the end. */
  lemma {:induction false} SortAppendLater(flows: seq<CashFlow>, t: CashFlow)
    requires forall k :: 0 <= k < |flows| ==> flows[k].date < t.date
    ensures SortByDate(flows + [t]) == SortByDate(flows) + [t]
  {
    if flows == [] {
      assert [] + [t] == [t];
    } else {
      assert (flows + [t])[0] == flows[0] && (flows + [t])[1..] == flows[1..] + [t];
      SortAppendLater(flows[1..], t);
      InsertBeforeLater(flows[0], SortByDate(flows[1..]), t);
    }
  }

  /** The amounts passed to the solver: the timeline projected to its amounts. */
  function Amounts(flows: seq<CashFlow>): (r: seq<real>)
    ensures |r| == |flows|
    ensures forall k :: 0 <= k < |r| ==> r[k] == flows[k].amount
  {
    seq(|flows|, k requires 0 <= k < |flows| => flows[k].amount)
  }

  predicate HasPositive(amounts: seq<real>) {
    exists k :: 0 <= k < |amounts| && amounts[k] > 0.0
  }

  predicate HasNegative(amounts: seq<real>) {
    exists k :: 0 <= k < |amounts| && amounts[k] < 0.0
  }

  /** The guard before calling the solver: more than one entry and a change of sign. */
  predicate IrrAttempted(amounts: seq<real>): (b: bool)
    ensures b <==> HasPositive(amounts) && HasNegative(amounts)
  {
    assert HasPositive(amounts) && HasNegative(amounts) ==> |amounts| > 1 by {
      if HasPositive(amounts) && HasNegative(amounts) {
        var i :| 0 <= i < |amounts| && amounts[i] > 0.0;
        var j :| 0 <= j < |amounts| && amounts[j] < 0.0;
        assert i != j;
      }
    }
    |amounts| > 1 && HasPositive(amounts) && HasNegative(amounts)
  }

  /** The IRR field: the solver's rate when the guard holds and the rate is finite, else null. */
  function IrrOf(amounts: seq<real>, solve: seq<real> -> SolverOutcome): (r: Option<real>)
    ensures r.Some? ==> IrrAttempted(amounts) && solve(amounts) == Rate(r.value)
    ensures IrrAttempted(amounts) && solve(amounts).Rate? ==> r == Some(solve(amounts).rate)
  {
    if IrrAttempted(amounts) then
      match solve(amounts)
      case Rate(v) => Some(v)
      case _ => None
    else None
  }

  // ---------------------------------------------------------------------------
  // The fund-level quantities.

  function FundCompanies(fund: string, investments: seq<Investment>): seq<string> {
    DistinctCompanies(FundInvestments(fund, investments))
  }

  function FundEventsOf(fund: string, investments: seq<Investment>, events: seq<Event>): seq<Event> {
    FundEvents(events, FundCompanies(fund, investments))
  }

  function TotalInvested(fund: string, investments: seq<Investment>): real {
    SumSizes(FundInvestments(fund, investments))
  }

  function TotalRealized(fund: string, investments: seq<Investment>, events: seq<Event>): real {
    SumCash(RealizedEvents(FundEventsOf(fund, investments, events)))
  }

  function TotalUnrealized(fund: string, investments: seq<Investment>, events: seq<Event>): real {
    UnrealizedSum(FundEventsOf(fund, investments, events), FundCompanies(fund, investments))
  }

  /** The timeline before the terminal entry: the outflows, then the realized inflows. */
  function OpeningFlows(fund: string, investments: seq<Investment>, events: seq<Event>): seq<CashFlow> {
    InvestmentFlows(FundInvestments(fund, investments))
      + RealizedFlows(RealizedEvents(FundEventsOf(fund, investments, events)))
  }

  /** The sorted timeline whose amounts are handed to the solver. */
  function Timeline(fund: string, investments: seq<Investment>, events: seq<Event>, today: Day): seq<CashFlow> {
    SortByDate(Finalize(OpeningFlows(fund, investments, events), TotalUnrealized(fund, investments, events), today))
  }

  /** The amounts of the timeline add up to what came back minus what went in, counting the
      unrealized value only when it is positive. */
  lemma TimelineNet(fund: string, investments: seq<Investment>, events: seq<Event>, today: Day)
    ensures var u := TotalUnrealized(fund, investments, events);
      SumAmounts(Timeline(fund, investments, events, today))
        == TotalRealized(fund, investments, events) + (if u > 0.0 then u else 0.0) - TotalInvested(fund, investments)
  {
    var fi := FundInvestments(fund, investments);
    var re := RealizedEvents(FundEventsOf(fund, investments, events));
    var u := TotalUnrealized(fund, investments, events);
    var opening := OpeningFlows(fund, investments, events);
    InvestmentFlowsSum(fi);
    RealizedFlowsSum(re);
    SumAmountsAppend(InvestmentFlows(fi), RealizedFlows(re));
    var finalized := Finalize(opening, u, today);
    if u > 0.0 {
      SumAmountsAppend(opening, [CashFlow(TerminalDate(opening, today), u)]);
    }
    SortKeepsSum(finalized);
  }

  /** With a positive unrealized value the terminal entry is the last entry of the sorted
      timeline, and every other entry is dated strictly before it. */
  lemma TerminalEntryIsLast(fund: string, investments: seq<Investment>, events: seq<Event>, today: Day)
    requires TotalUnrealized(fund, investments, events) > 0.0
    ensures var opening := OpeningFlows(fund, investments, events);
      var t := CashFlow(TerminalDate(opening, today), TotalUnrealized(fund, investments, events));
      Timeline(fund, investments, events, today) == SortByDate(opening) + [t]
  {
    var opening := OpeningFlows(fund, investments, events);
    var t := CashFlow(TerminalDate(opening, today), TotalUnrealized(fund, investments, events));
    SortAppendLater(opening, t);
  }

  lemma {:induction false} NoEventsNoValue(companies: seq<string>)
    ensures UnrealizedSum([], companies) == 0.0
  {
    if companies != [] {
      NoEventsNoValue(companies[..|companies| - 1]);
    }
  }

  /** A fund whose own investments are all positive and with no events at all has no unrealized value and no IRR:
      every entry of its timeline is an outflow. */
  lemma NoEventsNoIrr(fund: string, investments: seq<Investment>, today: Day, solve: seq<real> -> SolverOutcome)
    requires forall k :: 0 <= k < |investments| && investments[k].fund == fund ==> investments[k].size > 0.0
    ensures TotalUnrealized(fund, investments, []) == 0.0
    ensures IrrOf(Amounts(Timeline(fund, investments, [], today)), solve) == None
  {
    var fi := FundInvestments(fund, investments);
    assert FundEventsOf(fund, investments, []) == [];
    NoEventsNoValue(FundCompanies(fund, investments));
    var opening := OpeningFlows(fund, investments, []);
    assert opening == InvestmentFlows(fi);
    var timeline := Timeline(fund, investments, [], today);
    assert timeline == SortByDate(opening);
    forall k | 0 <= k < |timeline| ensures timeline[k].amount < 0.0 {
      assert timeline[k] in multiset(opening);
      var j :| 0 <= j < |opening| && opening[j] == timeline[k];
      FundInvestmentsMembers(fund, investments, fi[j]);
      var i :| 0 <= i < |investments| && investments[i] == fi[j];
    }
    assert !HasPositive(Amounts(timeline));
  }

  // ---------------------------------------------------------------------------
  // calculate_fund_returns, step by step.

  /** Step 2: appends one outflow entry (date, -size) per investment row, in row order. */
  method AppendOutflows(flows: seq<CashFlow>, rows: seq<Investment>) returns (r: seq<CashFlow>)
    ensures r == flows + InvestmentFlows(rows)
    ensures |r| == |flows| + |rows|
    ensures forall k :: 0 <= k < |rows| ==> r[|flows| + k] == CashFlow(rows[k].date, -rows[k].size)
  {
    r := flows;
    for i := 0 to |rows|
      invariant r == flows + InvestmentFlows(rows[..i])
    {
      assert rows[..i + 1][..i] == rows[..i];
      r := r + [CashFlow(rows[i].date, -rows[i].size)];
    }
    assert rows[..|rows|] == rows;
  }

  /** Step 5: appends one inflow entry (date, cash) per realized event whose cash flow is not null. */
  method AppendInflows(flows: seq<CashFlow>, realized: seq<Event>) returns (r: seq<CashFlow>)
    ensures r == flows + RealizedFlows(realized)
    ensures SumAmounts(r) == SumAmounts(flows) + SumCash(realized)
  {
    r := flows;
    for i := 0 to |realized|
      invariant r == flows + RealizedFlows(realized[..i])
    {
      var row := realized[i];
      assert realized[..i + 1][..i] == realized[..i];
      if row.cashFlow.Some? {
        r := r + [CashFlow(row.date, row.cashFlow.value)];
      }
    }
    assert realized[..|realized|] == realized;
    RealizedFlowsSum(realized);
    SumAmountsAppend(flows, RealizedFlows(realized));
  }

  /** Step 6: the latest valuation of every company of the fund, summed; a company without
      events, or whose latest valuation is null, adds 0. */
  method SumLatestValuations(fundEvents: seq<Event>, companies: seq<string>) returns (total: real)
    ensures total == UnrealizedSum(fundEvents, companies)
  {
    var latest: map<string, Option<real>> := map[];
    if fundEvents != [] {
      latest := LatestValuations(fundEvents);
    }
    total := 0.0;
    for i := 0 to |companies|
      invariant total == UnrealizedSum(fundEvents, companies[..i])
    {
      var company := companies[i];
      var companyUnrealized := if company in latest then latest[company] else Some(0.0);
      LookupIsCompanyValue(fundEvents, latest, company);
      UnrealizedSumStep(fundEvents, companies, i);
      total := total + (if companyUnrealized.Some? then companyUnrealized.value else 0.0);
    }
    assert companies[..|companies|] == companies;
  }

  /** Step 8: appends the terminal unrealized entry when the unrealized value is positive, dated
      today if today is after every entry and the day after the latest entry otherwise. */
  method AppendTerminal(flows: seq<CashFlow>, unrealized: real, today: Day) returns (r: seq<CashFlow>)
    ensures r == Finalize(flows, unrealized, today)
    ensures unrealized > 0.0 ==>
      (&& |r| == |flows| + 1 && r[..|flows|] == flows
       && r[|flows|].amount == unrealized
       && (forall k :: 0 <= k < |flows| ==> flows[k].date < r[|flows|].date))
    ensures unrealized <= 0.0 ==> r == flows
  {
    r := flows;
    if unrealized > 0.0 {
      var lastFlowDate := if flows != [] then MaxDate(flows) else today - 1;
      if today > lastFlowDate {
        r := r + [CashFlow(today, unrealized)];
      } else {
        r := r + [CashFlow(lastFlowDate + 1, unrealized)];
      }
      assert r[..|flows|] == flows;
    }
  }

  /** The IRR guard: the solver is called only on more than one amount with a change of sign, and
      only a finite rate is kept; NaN, infinities and a ValueError give null. */
  method GuardedIrr(amounts: seq<real>, solve: seq<real> -> SolverOutcome) returns (irr: Option<real>)
    ensures irr == IrrOf(amounts, solve)
    ensures irr.Some? <==> IrrAttempted(amounts) && solve(amounts).Rate?
  {
    if |amounts| > 1 && HasPositive(amounts) && HasNegative(amounts) {
      match solve(amounts)
      case Rate(v) =>
        irr := Some(v);
      case _ =>
        irr := None;
    } else {
      irr := None;
    }
  }

  /** calculate_fund_returns: the result record of `fund`, and the sorted timeline whose amounts
      went to the solver. */
  method CalculateFundReturns(fund: string, investments: seq<Investment>, events: seq<Event>,
                              today: Day, solve: seq<real> -> SolverOutcome)
    returns (res: FundResult, timeline: seq<CashFlow>)
    ensures res.fund == fund
    ensures FundInvestments(fund, investments) == [] ==>
      res == FundResult(fund, 0.0, 0.0, 0.0, 0.0, None, None) && timeline == []
    ensures FundInvestments(fund, investments) != [] ==>
      && res.totalInvested == TotalInvested(fund, investments)
      && res.totalRealized == TotalRealized(fund, investments, events)
      && res.totalUnrealized == TotalUnrealized(fund, investments, events)
      && res.totalValue == res.totalRealized + res.totalUnrealized
      && res.moic == Some(if res.totalInvested > 0.0 then res.totalValue / res.totalInvested else 0.0)
      && timeline == Timeline(fund, investments, events, today)
      && res.irr == IrrOf(Amounts(timeline), solve)
  {
    res := FundResult(fund, 0.0, 0.0, 0.0, 0.0, None, None);
    timeline := [];

    var fundInvestments := FundInvestments(fund, investments);
    if fundInvestments == [] {
      return;
    }

    res := res.(totalInvested := SumSizes(fundInvestments));
    timeline := AppendOutflows(timeline, fundInvestments);
    assert timeline == InvestmentFlows(fundInvestments);

    var companies := DistinctCompanies(fundInvestments);
    var fundEvents := FundEvents(events, companies);

    var realized := RealizedEvents(fundEvents);
    res := res.(totalRealized := SumCash(realized));
    timeline := AppendInflows(timeline, realized);
    assert timeline == OpeningFlows(fund, investments, events);

    var totalUnrealized := SumLatestValuations(fundEvents, companies);
    res := res.(totalUnrealized := totalUnrealized);

    res := res.(totalValue := res.totalRealized + res.totalUnrealized);
    if res.totalInvested > 0.0 {
      res := res.(moic := Some(res.totalValue / res.totalInvested));
    } else {
      res := res.(moic := Some(0.0));
    }

    timeline := AppendTerminal(timeline, res.totalUnrealized, today);
    timeline := SortByDate(timeline);
    var amounts := Amounts(timeline);
    var irr := GuardedIrr(amounts, solve);
    res := res.(irr := irr);
  }
}
