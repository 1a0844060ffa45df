# Yang Portfolio — fund returns and stored comma lists, in Dafny

This project models the two pieces of real logic in the Yang Portfolio venture-portfolio
tracker and proves what they promise.

* **Fund return aggregation** (`calculate_fund_returns`, module `InvestmentReturns`,
  `investment_returns.dfy`). Given a fund name, every investment row and every event row, it
  does the following:
  * keeps the fund's investments and the distinct companies they went into;
  * sums the amount invested;
  * sums the cash of the `Exit` and `Dividend` events of those companies;
  * takes each company's latest-dated holding valuation as its unrealized value;
  * computes Total Value and MOIC;
  * builds the dated cash-flow timeline and appends a terminal unrealized inflow;
  * sorts the timeline stably by date and calls the IRR solver behind a sign guard.

  The routine is imperative in the source: it fills a result dict field by field and grows a
  list with `append` in loops. It is modelled as the method
  `CalculateFundReturns`, which calls one method per step (`AppendOutflows`, `AppendInflows`,
  `SumLatestValuations`, `AppendTerminal`, `GuardedIrr`). Each loop carries invariants that tie
  it to a specification function, and the lemmas state the properties of those functions.
* **Comma-list parsing** (`parse_string_list`, module `CommaList`, `comma_list.dfy`). This
  is the pure routine that reads back industry and investment-type lists. Those lists are stored
  as `", ".join(sorted(selection))`. The model covers `str.split(',')`, `str.strip()` (with
  Python's whitespace set), the filter and the stored encoding, and proves the round trips.

Modelling choices:
* Dates are `int` day numbers (`Day`) and money is exact `real`.
* A nullable numeric column is an `Option<real>` (module `Options`, `options.dfy`).
* Event types are the three values the events table allows.
* `date.today()` is the parameter `today`.
* The IRR solver `npf.irr` is the parameter `solve: seq<real> -> SolverOutcome`. Its outcome is
  a finite rate, NaN, an infinity or a raised `ValueError`.
* The inputs are immutable sequences, so the routine cannot change the caller's tables. The
  source gets the same effect by copying them (`.copy()`).
* `CalculateFundReturns` also returns the sorted timeline. In the source that timeline is a
  local list, so returning it adds no behaviour; it only lets the properties of the timeline be
  stated.

In four places the code differs from its own comments or from the documented design. The model
follows the code each time:
* A fund with no investment rows returns MOIC `None`, not `0.0`. The `0.0` branch is reached
  only when the matched investments sum to zero or less.
* When two events of a company share the latest date, `idxmax` picks the first of them in
  input order (`LatestIndex`, `TieKeepsFirst`).
* A null valuation on the latest event counts as 0. The code does not fall back to an earlier
  non-null valuation (`NullLatestCountsZero`).
* Fund and company names are matched by exact, case-sensitive string equality.

## Model

| member | source | states |
|---|---|---|
| `InvestmentReturns.CalculateFundReturns` | Pages/5_Investment_Returns.py:75-169 | With no investment row of the fund: Fund = fund, all four totals 0.0, MOIC and IRR null, no timeline. Otherwise each total equals its specification function, Total Value = Realized + Unrealized, MOIC = Value / Invested when Invested > 0 and 0.0 otherwise (no division by zero), the timeline is the stably sorted finalized timeline, and IRR is the guarded solver result on its amounts |
| `InvestmentReturns.FundInvestments` | Pages/5_Investment_Returns.py:89-92 | The fund's rows; the result is empty exactly when no row has that fund (the early-return case) |
| `InvestmentReturns.FundInvestmentsAppend` | Pages/5_Investment_Returns.py:89 | The filter works row by row: one row is kept iff its fund matches, and a concatenation is filtered part by part, so order and repeated rows are kept |
| `InvestmentReturns.FundInvestmentsMembers` | Pages/5_Investment_Returns.py:89 | A row is kept iff it is an input row whose fund equals the argument exactly |
| `InvestmentReturns.TotalInvestedIsFundSum` | Pages/5_Investment_Returns.py:89-95 | Total Invested equals the sum of sizes over exactly the rows whose fund equals the argument |
| `InvestmentReturns.SumSizes` | Pages/5_Investment_Returns.py:95 | The invested total is non-negative when every size is, and strictly positive for a non-empty fund with positive sizes (the MOIC division branch) |
| `InvestmentReturns.InvestmentFlows` | Pages/5_Investment_Returns.py:96-97 | One entry (date, -size) per fund investment, in row order |
| `InvestmentReturns.AppendOutflows` | Pages/5_Investment_Returns.py:95-97 | The loop appends exactly one entry (date, -size) per row, after the existing entries, in row order |
| `InvestmentReturns.InvestmentFlowsSum` | Pages/5_Investment_Returns.py:95-97 | The outflow entries add up to minus Total Invested |
| `InvestmentReturns.DistinctCompanies` | Pages/5_Investment_Returns.py:100 | The fund's companies have no repetition, and a company is listed iff some fund row invested in it |
| `InvestmentReturns.FundEvents` | Pages/5_Investment_Returns.py:103 | At most one entry per event row, and every kept event belongs to a listed company |
| `InvestmentReturns.FundEventsAppend` | Pages/5_Investment_Returns.py:103 | The isin filter works row by row: one event is kept iff its company is listed, and a concatenation is filtered part by part, so order and repeated rows are kept |
| `InvestmentReturns.FundEventsMembers` | Pages/5_Investment_Returns.py:103 | An event is kept iff its company is exactly one of the fund's companies |
| `InvestmentReturns.RealizedEvents` | Pages/5_Investment_Returns.py:106 | At most one entry per event row, and every kept event is an Exit or a Dividend |
| `InvestmentReturns.RealizedEventsAppend` | Pages/5_Investment_Returns.py:106 | The filter works row by row: one event is kept iff it is an Exit or a Dividend, and a concatenation is filtered part by part, so order and repeated rows are kept |
| `InvestmentReturns.RealizedEventsMembers` | Pages/5_Investment_Returns.py:106 | An event is realized iff it is an Exit or a Dividend; Valuation Update events never are |
| `InvestmentReturns.SumCash` | Pages/5_Investment_Returns.py:107 | The cash column sum skips nulls: an all-null column sums to 0, and non-negative cash flows give a non-negative total |
| `InvestmentReturns.TotalRealizedIsFundSum` | Pages/5_Investment_Returns.py:103-107 | Total Realized is the sum of non-null cash flows over exactly the Exit/Dividend events of the fund's companies; null cash flows count 0 |
| `InvestmentReturns.RealizedFlows` | Pages/5_Investment_Returns.py:108-110 | At most one inflow entry per event, and exactly one per event when no cash flow is null |
| `InvestmentReturns.RealizedFlowsAppend` | Pages/5_Investment_Returns.py:108-110 | One event adds (date, cash) iff its cash flow is not null, and the entries of a concatenation are those of its parts in order |
| `InvestmentReturns.RealizedFlowsSum` | Pages/5_Investment_Returns.py:107-110 | The inflow entries, one per non-null cash flow, add up to Total Realized |
| `InvestmentReturns.AppendInflows` | Pages/5_Investment_Returns.py:106-110 | The loop appends one entry (date, cash) per realized event with a non-null cash flow, in order, and adds Total Realized to the timeline's net |
| `InvestmentReturns.LatestIndex` | Pages/5_Investment_Returns.py:116 | None iff the company has no event; otherwise an event of that company with the greatest date, and every earlier event of the company is strictly older (first row wins on ties) |
| `InvestmentReturns.LatestValuations` | Pages/5_Investment_Returns.py:113-117 | The table has a key for exactly the companies with events, mapped to the (possibly null) valuation of the latest event |
| `InvestmentReturns.CompanyValue` | Pages/5_Investment_Returns.py:119-124 | A company without events contributes 0; otherwise it contributes the valuation of the event LatestIndex selects (first of the latest-dated), or 0 when that valuation is null; a non-zero contribution is the valuation of a latest-dated event of the company |
| `InvestmentReturns.LookupIsCompanyValue` | Pages/5_Investment_Returns.py:122-124 | Lookup with default 0.0 and the null check give the company's latest valuation, or 0 |
| `InvestmentReturns.LatestEventSnoc` | Pages/5_Investment_Returns.py:116 | A new row becomes its company's latest event iff it is strictly later than the previous latest one; rows of other companies change nothing |
| `InvestmentReturns.LatestEventOfFundEvents` | Pages/5_Investment_Returns.py:103-117 | Filtering the events to the fund's companies does not change any of those companies' latest event |
| `InvestmentReturns.TotalUnrealizedOverAllEvents` | Pages/5_Investment_Returns.py:100-126 | Total Unrealized is the sum over the distinct fund companies of each company's latest valuation among all events |
| `InvestmentReturns.SumLatestValuations` | Pages/5_Investment_Returns.py:113-126 | The loop over the distinct companies accumulates exactly the sum of their latest valuations, with null or missing counted as 0 |
| `InvestmentReturns.TieKeepsFirst` | Pages/5_Investment_Returns.py:116 | Of two same-date events of one company, the first one's valuation is used |
| `InvestmentReturns.NullLatestCountsZero` | Pages/5_Investment_Returns.py:117-124 | A null valuation on the latest event counts 0 even when an earlier event has a valuation |
| `InvestmentReturns.NoEventsNoIrr` | Pages/5_Investment_Returns.py:119-167 | A fund whose own investment rows all have positive size, with no events, has Total Unrealized 0 and no IRR, since no timeline amount is positive; other funds' rows are unconstrained |
| `InvestmentReturns.MaxDate` | Pages/5_Investment_Returns.py:140 | The latest timeline date: no entry is later and some entry has it |
| `InvestmentReturns.TerminalDate` | Pages/5_Investment_Returns.py:140-145 | The terminal date is strictly after every entry and not before today; it is today when today is after every entry, else the latest date + 1 |
| `InvestmentReturns.Finalize` | Pages/5_Investment_Returns.py:137-145 | With Total Unrealized <= 0 the timeline is unchanged; otherwise the old entries are kept and one entry of the unrealized amount is added, dated not before today and strictly after every other entry |
| `InvestmentReturns.AppendTerminal` | Pages/5_Investment_Returns.py:137-145 | One entry of amount Total Unrealized is appended iff Total Unrealized > 0, dated strictly after all other entries; otherwise the timeline is unchanged |
| `InvestmentReturns.TerminalEntryIsLast` | Pages/5_Investment_Returns.py:137-149 | With Total Unrealized > 0 the sorted timeline is the sorted earlier entries followed by the terminal entry |
| `InvestmentReturns.Insert` | Pages/5_Investment_Returns.py:149 | Inserting adds exactly one entry (multiset) |
| `InvestmentReturns.InsertKeepsSorted` | Pages/5_Investment_Returns.py:149 | Inserting into a date-sorted timeline keeps it sorted |
| `InvestmentReturns.SortByDate` | Pages/5_Investment_Returns.py:149 | The sorted timeline is ascending by date and a permutation of the input |
| `InvestmentReturns.SortKeepsSameDateOrder` | Pages/5_Investment_Returns.py:149 | The sort is stable: the entries of any one date keep their append order |
| `InvestmentReturns.SortKeepsSum` | Pages/5_Investment_Returns.py:149 | Sorting does not change the net of the amounts |
| `InvestmentReturns.TimelineNet` | Pages/5_Investment_Returns.py:95-149 | The timeline's amounts add up to Total Realized - Total Invested, plus Total Unrealized when it is positive |
| `InvestmentReturns.Amounts` | Pages/5_Investment_Returns.py:152 | The solver input is the timeline projected to its amounts, in timeline order |
| `InvestmentReturns.IrrAttempted` | Pages/5_Investment_Returns.py:155 | The guard holds iff the amounts contain a strictly positive and a strictly negative value; the length test is implied by the sign tests |
| `InvestmentReturns.IrrOf` | Pages/5_Investment_Returns.py:155-167 | IRR is non-null iff there is more than one amount with at least one strictly positive and one strictly negative, and the solver gives a finite rate; then it is that rate |
| `InvestmentReturns.GuardedIrr` | Pages/5_Investment_Returns.py:155-167 | The guard-and-catch block yields a rate iff the guard holds and the solver returns a finite rate; NaN, infinities and ValueError give null |
| `CommaList.ParseStringList` | Yang_Portfolio.py:436-438 | A falsy argument (None or "") gives []; every item is non-empty, stripped and comma-free; there are at most commas + 1 items |
| `CommaList.TrimStart` | Yang_Portfolio.py:438 | lstrip leaves no leading whitespace |
| `CommaList.TrimStartRemovesLeadingSpace` | Yang_Portfolio.py:438 | lstrip keeps a suffix of its argument, and removes only whitespace |
| `CommaList.TrimEnd` | Yang_Portfolio.py:438 | rstrip leaves no trailing whitespace |
| `CommaList.TrimEndRemovesTrailingSpace` | Yang_Portfolio.py:438 | rstrip keeps a prefix of its argument, and removes only whitespace |
| `CommaList.Strip` | Yang_Portfolio.py:438 | strip leaves no whitespace at either end, adds no comma, is empty iff the argument is all whitespace, and leaves an already stripped string unchanged |
| `CommaList.Split` | Yang_Portfolio.py:438 | split(',') gives commas + 1 pieces, none containing a comma |
| `CommaList.Join` | Yang_Portfolio.py:483 | sep.join: the result has the parts' total length plus one separator between each two neighbouring parts |
| `CommaList.SplitJoin` | Yang_Portfolio.py:438 | Joining the pieces of split(',') with "," gives back the text |
| `CommaList.JoinSplit` | Yang_Portfolio.py:438 | Splitting the ","-join of comma-free pieces gives back the pieces |
| `CommaList.Clean` | Yang_Portfolio.py:438 | The filter keeps at most one item per piece, each non-empty and stripped, and comma-free when the pieces are; which item each piece yields is stated by `CleanAppend` |
| `CommaList.CleanAppend` | Yang_Portfolio.py:438 | Piece by piece: a single piece p yields [strip(p)] exactly when strip(p) is non-empty and nothing otherwise, and cleaning a concatenation concatenates the cleaned parts, so the items are the non-empty stripped pieces in order |
| `CommaList.JoinCommaSpace` | Yang_Portfolio.py:483 | The ", "-join is the ","-join with a space before every item but the first |
| `CommaList.RoundTrip` | Yang_Portfolio.py:466-483 | Parsing the ", "-join of non-empty, stripped, comma-free items returns exactly those items |
| `CommaList.ParseIdempotent` | Yang_Portfolio.py:436-438 | Parsing the ", "-join of a parsed list returns that parsed list |
| `CommaList.LexLeTotal` | Yang_Portfolio.py:483 | Python's code-point ordering of strings is total |
| `CommaList.InsertString` | Yang_Portfolio.py:483 | Inserting adds exactly one item (multiset) and puts it first or keeps the old first item |
| `CommaList.InsertStringKeepsSorted` | Yang_Portfolio.py:483 | Inserting into a sorted list keeps it sorted |
| `CommaList.SortStrings` | Yang_Portfolio.py:483 | sorted() returns an ordered permutation of the selection |
| `CommaList.Encode` | Yang_Portfolio.py:466-483 | The stored form of well-formed items reads back as the selection in sorted order, a permutation of what was selected |
| `CommaList.ResaveUnchanged` | Yang_Portfolio.py:466-483 | Saving the update form with the re-read selection stores the same text again |

## Left out

- Every SQLite function (`db_connect`, `create_*_table`, `get_*`, `add_*`, `update_*`,
  `delete_*`, `get_portfolio_summary_stats`): persistence whose meaning lives in the database
  engine. The record readers' type coercion and row dropping are left out too. The routine
  receives records that are already typed.
- `npf.irr`: a floating-point root finder in a library that is not part of this model. It is the
  parameter `solve`; only the guard around the call and the filtering of its result are modelled.
- Floating point: amounts are exact reals, so rounding in the sums and in MOIC is not modelled,
  and a NaN in a numeric column is `None`.
- `date.today()` and pandas timestamps: today is a parameter, and dates are day numbers with
  "+ 1 day" as "+ 1".
- `list.sort` works in place in the source. The model replaces the list with the value of a
  stable insertion sort.
- `format_currency`, `format_multiple`, `format_percentage`, all Streamlit rendering, forms and
  routing, the other page files and `populate_synthetic_data.py`: UI, formatting and random data
  generation with no deterministic behaviour to state.
- `CommaList.IsSpace` lists the characters for which Python's `str.isspace()` is true.
  Unicode normalisation plays no part in `strip()` and is not modelled.
