# Ai-Prophet-Infinity dashboard core, modelled in Dafny

Ai-Prophet-Infinity is a mock financial dashboard written as React components.
Most of what it shows is the result of `Math.random()`. Around those draws sit
small pieces of definite logic, and those pieces are what this project models
and proves things about:

- **Paper trading** (`paper_trading.dfy`). An account holds a cash balance and
  positions keyed by symbol. `executeTrade` is a guarded buy/sell step: it
  rejects a missing stock, a bad share count, a buy beyond the balance and an
  oversell. It buys into a new or held position with a weighted-average cost.
  It sells part or all of a position. The portfolio value, total P/L and P/L
  percent are reductions over the positions, and the stock search is a
  case-insensitive filter.
- **Portfolio page** (`portfolio.dfy`). It models the metrics effect (value,
  P/L, guarded P/L percent and the allocation list with its "Cash" entry), the
  31-day history chart whose last point is the current value, and the live
  price ticks.
- **Prediction variables** (`variables.dfy`). It models toggle, weight edits,
  the category filter, enable all / reset all, the averaged net impact, the
  category list and the unsaved-changes flag.
- **Prediction history** (`prediction_history.dfy`). It models the generated
  records, the accuracy and direction statistics, the accuracy chart, the
  direction-correct rule, the ten-row log and the open handler.
- **Proof page and proof API** (`proof_page.dfy`, `proof_api.dfy`). The page
  models the fetch checks, the fallback data, the total/correct/pending
  metrics, the accuracy rate and the tab filter. The API models the newest-100
  selection as an abstract table query, the row flattening with its defaults,
  and the success/error body.
- **News feed** (`news_feed.dfy`). It models the fixed and backup stories, the
  failure counter, the capped prepend of live headlines, the category tabs,
  the refresh button and relative-time labels.
- **NASDAQ feed** (`nasdaq_feed.dfy`). It models the 21 mock quotes, the
  five-point hourly prediction segment that interpolates linearly to the
  target, the confidence clamps, the micro-update of the last quote and the
  chart concatenation.
- **Portfolio predictions** (`portfolio_predictions.dfy`). It models the
  compounding history, the forecast, the combined chart rows, the live update
  of the last entries, the Refresh Data button, the confidence clamp, the
  backup figures and the gain formulas.
- **Top predictions** (`top_predictions.dfy`). It models the per-interval
  asset update and its invariant: confidence stays in 60..99, and prices and
  targets stay positive.
- **Chat** (`chat.dfy`). It models submit with its blank/loading guard, the
  keyword-ranked reply lead, reset and tips.
- **Market search** (`market_search.dfy`). It models the three derived
  results, the blank-query guard, the 31-day price walk, the capped bar
  height and the "Search Another Stock" reset.
- **Analysis panel** (`analysis_panel.dfy`). It models the stock filter, the
  31-point technical chart, and the band and threshold wordings.
- **Splash screen** (`splash.dfy`). It models the progress step, which fills
  the bar in twenty ticks.

Helper modules:

- `numbers.dfy`: `Math.round`, rounding to cents, clamps, and the index a draw
  selects.
- `text.dfy`: ASCII case mapping, the blank test of `!s.trim()`, `includes`,
  and integer rendering.
- `seqs.dfy`: `filter` and its order facts.
- `options.dfy`: `undefined`/`null`.

Modelling conventions:

- **Random draws.** Every `Math.random()` value is a parameter `r` with
  `0 <= r < 1`. Results are proved bounded for all draws; distributions are not
  modelled.
- **Numbers.** Money, prices and shares are exact `real`s. `Math.round(x)` is
  `floor(x + 0.5)`. `Number(x.toFixed(2))` is exact rounding to cents with
  ties away from zero, as `toFixed` rounds the magnitude: -0.125 becomes
  -0.13 (`Numbers.Round2`).
- **Undefined arithmetic.** Where the source divides without a guard, the
  result is an explicit not-a-number case.
- **Component state.** State that a component changes step by step is a
  class. Each handler, and each timer callback, is one method that states the
  whole new state.
- **Clocks and dates.** Clock readings are integer parameters, and dates are
  integer day or minute offsets. The news tables and the prediction history
  are dated from the fixed local date 2025-03-27T21:11:23, not from the clock;
  its millisecond value (`base` in the news feed, `now` in the prediction
  history) is a parameter because it depends on the time zone.

Where the source does something its surroundings suggest it did not intend,
the model follows the code. These cases are:

- The NASDAQ micro-update moves the confidence by less than a quarter point
  before rounding, so the displayed confidence never changes
  (`NasdaqFeed.NudgeKeepsConfidence`).
- Both proof-page divisions are unguarded. `accuracy` is not a number when
  every prediction is pending (`ProofPage.AllPendingIsNaN`). The paper-trading
  P/L percent is not a number with no positions
  (`PaperTrading.EmptyPortfolioPercentIsNaN`).
- The prediction-history "Direction Rate" is positive + negative over their
  sum, so it is always 100 once any record is verified
  (`PredictionHistory.DirectionRateIsFull`).
- In the analysis panel a query made only of spaces is truthy. It filters the
  list instead of showing every stock.
- A failed portfolio-predictions load with at most two failures so far leaves
  the card loading.
- The portfolio-predictions Refresh Data button stores its confidence without
  `Math.round`, so it can show 75.2 where a load of the same draw shows 75
  (`PortfolioPredictions.RefreshConfidenceUnrounded`). It also leaves the
  failure counter, the backup flag and the initial-load flag as they were.
- The NASDAQ backup interval is set up by an effect that runs once, so it reads
  the `data` of the first render, which is empty. `data[data.length - 1]` is
  then undefined, and every 2-second tick throws before it changes anything.
- The splash interval runs 21 times: the 21st tick finds the bar full and
  clears the interval.

## Model

| member | source | states |
|---|---|---|
| Numbers.Round2 | components/top-predictions.tsx:100 | Number(x.toFixed(2)) is within half a cent of x; a tie goes away from zero, so the result is strictly above x - 0.005 for x >= 0 and strictly below x + 0.005 for x <= 0 |
| Numbers.Round2Symmetric | components/top-predictions.tsx:100 | rounding to cents commutes with negation |
| Numbers.Round2Ties | components/top-predictions.tsx:100 | 0.125 rounds to 0.13 and -0.125 to -0.13 |
| Numbers.Round2Monotone | components/top-predictions.tsx:100 | rounding to cents is monotone |
| PaperTrading.SharesValue | components/paper-trading.tsx:76-77 | Number() of the Shares box is NaN exactly when the text is not a number (the empty box reads as 0) |
| PaperTrading.TotalPLIsValueMinusCost | components/paper-trading.tsx:51-57 | the summed per-position P/L equals market value minus cost basis |
| PaperTrading.TotalPLPercent | components/paper-trading.tsx:60 | the percent is P/L over cost basis times 100, and is not a number exactly when the cost basis is 0 |
| PaperTrading.EmptyPortfolioPercentIsNaN | components/paper-trading.tsx:41-60 | with no positions the unguarded denominator portfolioValue - totalPL - balance is 0, so the percent is not a number |
| PaperTrading.InitialLedgerValid | components/paper-trading.tsx:10-15 | the starting account has a non-negative balance, unique symbols and positive share counts |
| PaperTrading.Find | components/paper-trading.tsx:84-123 | positions.find returns the first entry with the symbol, or none when no entry has it |
| PaperTrading.FindUnique | components/paper-trading.tsx:84-123 | with unique symbols, find returns the one entry holding the symbol |
| PaperTrading.MapBuy | components/paper-trading.tsx:88-101 | same length; the matching entries get old+new shares and the share-weighted average price, others are unchanged |
| PaperTrading.MapSell | components/paper-trading.tsx:134-142 | same length; the matching entries lose the sold shares, keep everything else; others are unchanged |
| PaperTrading.BuyStep | components/paper-trading.tsx:79-120 | a buy is refused for insufficient funds exactly when shares*price exceeds the balance, and otherwise takes exactly shares*price from it |
| PaperTrading.SellStep | components/paper-trading.tsx:121-147 | a sell is refused exactly when the symbol is unheld or fewer shares are held, and otherwise adds exactly shares*price |
| PaperTrading.TradeOfPositive | components/paper-trading.tsx:73-79 | with a stock selected and a positive count, the trade is the buy or the sell branch |
| PaperTrading.TradeRejections | components/paper-trading.tsx:74-124 | each refusal reason occurs exactly (or only) under its guard: no selection, a NaN or non-positive count, too little cash, too few shares |
| PaperTrading.TradeBalance | components/paper-trading.tsx:80-147 | an accepted buy lowers the balance by shares*price, an accepted sell raises it by shares*price |
| PaperTrading.BuyBeyondBalanceRejected | components/paper-trading.tsx:80-81 | a buy costing more than the balance is refused |
| PaperTrading.OversellRejected | components/paper-trading.tsx:123-124 | selling more than is held, or an unheld symbol, is refused |
| PaperTrading.EmptySharesRejected | components/paper-trading.tsx:76-77 | an empty Shares box (Number("") is 0) is refused as an invalid count |
| PaperTrading.BuyHeld | components/paper-trading.tsx:84-120 | buying a held symbol replaces only that entry by old+new shares at the weighted-average price, and takes the cost from the balance |
| PaperTrading.BuyHeldCost | components/paper-trading.tsx:90-92 | buying into a held position raises the total cost basis by exactly the trade cost |
| PaperTrading.BuyIntoBasis | components/paper-trading.tsx:90-92 | the merged position's shares*avgPrice is the old basis plus shares*price |
| PaperTrading.BuyNew | components/paper-trading.tsx:104-120 | buying an unheld symbol appends one position and takes the cost from the balance; the cost basis grows by the cost |
| PaperTrading.NewPosition | components/paper-trading.tsx:108-115 | the new entry has the bought shares, and avgPrice and currentPrice both equal the price paid |
| PaperTrading.RemoveSymbolAt | components/paper-trading.tsx:130 | with unique symbols, filtering out a symbol deletes exactly its one entry and keeps the others in order |
| PaperTrading.FullSell | components/paper-trading.tsx:126-147 | selling the whole holding removes its entry, adds the proceeds, and lowers the cost basis by that entry's basis |
| PaperTrading.MapSellAt | components/paper-trading.tsx:133-143 | with unique symbols the partial sell changes only the one matching entry's shares |
| PaperTrading.PartialSell | components/paper-trading.tsx:131-147 | a partial sell lowers only that entry's shares, keeps its avgPrice, and adds the proceeds |
| PaperTrading.RemoveSymbolValid | components/paper-trading.tsx:130 | removing a symbol keeps symbols unique and share counts positive |
| PaperTrading.BuyStepValid | components/paper-trading.tsx:79-120 | an accepted buy keeps the balance non-negative, symbols unique and shares positive |
| PaperTrading.SellStepValid | components/paper-trading.tsx:121-147 | an accepted sell at a non-negative price keeps the ledger valid |
| PaperTrading.TradePreservesValid | components/paper-trading.tsx:73-153 | every accepted trade keeps the ledger invariant |
| PaperTrading.SearchPricesPositive | components/paper-trading.tsx:18-29 | every listed search result has a positive price |
| PaperTrading.FilteredResultsSpec | components/paper-trading.tsx:156-162 | an empty query lists all results; otherwise exactly the results whose symbol or name contains the query case-insensitively, in the original order |
| PaperTrading.Account.constructor | components/paper-trading.tsx:32-38 | the component starts with the initial positions and $5,000, no selection, an empty Shares box and buy mode |
| PaperTrading.Account.SelectStock | components/paper-trading.tsx:220 | clicking a result selects it and changes nothing else |
| PaperTrading.Account.EnterShares | components/paper-trading.tsx:267 | typing sets the Shares box |
| PaperTrading.Account.ChooseTradeType | components/paper-trading.tsx:248-255 | the buy/sell buttons set the trade type |
| PaperTrading.Account.EnterQuery | components/paper-trading.tsx:207 | typing sets the search query |
| PaperTrading.Account.ExecuteTrade | components/paper-trading.tsx:73-153 | a refused trade changes nothing; an accepted one installs the new positions and balance and clears the selection and the Shares box; the ledger stays valid |
| Portfolio.PLPercent | app/dashboard/portfolio.tsx:57-60 | the percent is total P/L over cost basis times 100 when the cost basis is positive, and 0 otherwise |
| Portfolio.PLPercentSign | app/dashboard/portfolio.tsx:49-60 | with a positive cost basis the percent is positive exactly when market value exceeds cost, and 0 exactly when they are equal |
| Portfolio.NoPositionsPercentIsZero | app/dashboard/portfolio.tsx:60 | with no positions the guarded percent is 0 |
| Portfolio.PositionAllocations | app/dashboard/portfolio.tsx:66-69 | one allocation per position, in order, named by its symbol |
| Portfolio.Allocations | app/dashboard/portfolio.tsx:66-70 | the position allocations followed by one "Cash" entry holding the balance |
| Portfolio.PositionAllocationValues | app/dashboard/portfolio.tsx:68 | each position's allocation value is shares times current price |
| Portfolio.PositionAllocationsTotal | app/dashboard/portfolio.tsx:42-69 | the position allocations sum to the positions' market value |
| Portfolio.AllocationsSumToValue | app/dashboard/portfolio.tsx:42-71 | all allocations, cash included, sum to the portfolio value |
| Portfolio.DailyFactorRange | app/dashboard/portfolio.tsx:89-90 | each day's factor lies in [0.995, 1.015) |
| Portfolio.CompoundNonNegative | app/dashboard/portfolio.tsx:80-90 | compounding from a non-negative start never goes negative |
| Portfolio.GenerateHistoricalData | app/dashboard/portfolio.tsx:77-104 | 31 points, 30 days ago down to today; each of the first 30 is the compounded value from 90% of the portfolio value rounded to cents; the last is overwritten with the portfolio value |
| Portfolio.HistoryShape | app/dashboard/portfolio.tsx:84-101 | the history's dates strictly increase and its values are non-negative for a non-negative portfolio value |
| Portfolio.RoundNonNegative | app/dashboard/portfolio.tsx:94 | rounding to cents keeps a non-negative value non-negative |
| Portfolio.LiveUpdate | app/dashboard/portfolio.tsx:120-130 | the update keeps the number and order of positions, each replaced by its own tick |
| Portfolio.TickBounds | app/dashboard/portfolio.tsx:121-129 | a tick keeps symbol, name, shares and avgPrice, moves the price into [0.995, 1.005) of itself and the change by at least -0.105 and less than 0.105 |
| Portfolio.TickReachesLowerBound | app/dashboard/portfolio.tsx:124-128 | from a change of -0.025 the draw 0 lowers the change by exactly 0.105, because toFixed rounds the negative tie down |
| Portfolio.LiveUpdateKeepsHoldings | app/dashboard/portfolio.tsx:118-132 | a live update keeps every symbol, share count and average price, so the cost basis is unchanged |
| Portfolio.Dashboard.constructor | app/dashboard/portfolio.tsx:30-37 | the page starts loading, with the initial positions, $5,000 and all metrics zero |
| Portfolio.Dashboard.RefreshMetrics | app/dashboard/portfolio.tsx:40-74 | the metrics effect sets value, P/L, guarded P/L percent and allocations from the current positions, the history from the previous render's portfolio value, and ends loading |
| Portfolio.Dashboard.LiveTick | app/dashboard/portfolio.tsx:117-137 | the interval leaves the positions alone while loading and otherwise replaces them by the live update |
| Variables.InitialInRange | components/variables-panel.tsx:35-195 | every initial factor has an impact in -10..10 and a weight in 0..100 |
| Variables.Toggle | components/variables-panel.tsx:202-205 | only the factors with the id have `enabled` flipped, every other entry and the filter are unchanged, and changesMade is set |
| Variables.ToggleTwice | components/variables-panel.tsx:202-205 | toggling the same id twice restores the list |
| Variables.SetWeight | components/variables-panel.tsx:208-211 | only the factors with the id get the new weight, other entries are unchanged, and changesMade is set |
| Variables.SetWeightInRange | components/variables-panel.tsx:208-211 | a weight in 0..100 keeps the list within the documented ranges |
| Variables.ResetAll | components/variables-panel.tsx:286-289 | every factor is disabled with nothing else about it changed, and changesMade is set |
| Variables.EnableAll | components/variables-panel.tsx:326-329 | every factor is enabled with nothing else about it changed, and changesMade is set |
| Variables.SetFilter | components/variables-panel.tsx:264-275 | the filter buttons change only the filter |
| Variables.StartSave | components/variables-panel.tsx:232-233 | saving marks the panel busy and keeps the list and the flag |
| Variables.FinishSave | components/variables-panel.tsx:235-237 | when the save completes the panel is idle and changesMade is cleared, the list untouched |
| Variables.EditThenSave | components/variables-panel.tsx:204-328 | every edit sets changesMade and a completed save clears it |
| Variables.FilteredSpec | components/variables-panel.tsx:214-217 | "all" gives the whole list; any other filter gives exactly the factors of that category, in order |
| Variables.NetImpact | components/variables-panel.tsx:220-229 | 0 when nothing is enabled, otherwise the mean of impact*weight/100 over the enabled factors |
| Variables.ScaleBound | components/variables-panel.tsx:225 | an impact in [-10, 10] scaled by a weight fraction in [0, 1] stays in [-10, 10] |
| Variables.ContributionBound | components/variables-panel.tsx:220-229 | one factor's contribution lies in [-10, 10] |
| Variables.TotalImpactBound | components/variables-panel.tsx:224-226 | the summed contribution of n factors lies in [-10n, 10n] |
| Variables.NetImpactBound | components/variables-panel.tsx:220-229 | with impacts and weights in range, the net impact lies in [-10, 10] |
| Variables.ResetAllNetImpact | components/variables-panel.tsx:222-289 | after Reset All the net impact is 0 |
| Variables.EnableAllNetImpact | components/variables-panel.tsx:220-329 | after Enable All the net impact is the mean contribution over the whole list |
| Variables.Categories | components/variables-panel.tsx:248 | each category of the list appears exactly once, and nothing else appears |
| ProofPage.AccuracyRate | components/proof-page.tsx:111-129 | 0 for an empty list; when everything is pending the unguarded division gives NaN (no correct) or Infinity (some correct); otherwise a rounded percentage |
| ProofPage.ComputeMetrics | components/proof-page.tsx:104-113 | total is the list length, correct and pending count those outcomes, and correct + pending never exceeds total |
| ProofPage.PercentBound | components/proof-page.tsx:111 | Math.round of c/d*100 with c <= d lies in 0..100 |
| ProofPage.AccuracyWithinBounds | components/proof-page.tsx:104-113 | the shown accuracy is never Infinity, and is a percentage in 0..100 whenever something is not pending |
| ProofPage.AllPendingIsNaN | components/proof-page.tsx:104-111 | a non-empty list of pending predictions makes the accuracy NaN |
| ProofPage.Accepted | components/proof-page.tsx:84-104 | the reply is used exactly when the status is OK, the content type mentions application/json, `success` holds and the predictions are present; then its predictions are shown |
| ProofPage.Fallback | components/proof-page.tsx:26-64 | the sample data holds three predictions, stamped from the module-load time |
| ProofPage.FallbackMetrics | components/proof-page.tsx:119-131 | the fallback metrics are total 3, correct 1, accuracy 50, pending 1 |
| ProofPage.TabFilter | components/proof-page.tsx:143-150 | a prediction is shown exactly when it is in the list and passes the active tab's test |
| ProofPage.PendingVerifiedPartition | components/proof-page.tsx:145-146 | the "pending" and "verified" tabs split the list: their sizes add up to its length and each prediction is on exactly one of them |
| ProofPage.AllTabShowsEverything | components/proof-page.tsx:144-149 | "all" or an unknown tab shows the whole list in order |
| ProofPage.StatusLabel | components/proof-page.tsx:259-265 | the status badge reads "Verified" exactly on the verified tab's predictions and "Pending" exactly on the pending tab's |
| ProofPage.OutcomeLabel | components/proof-page.tsx:270-283 | the outcome cell reads Pending, Correct, or otherwise Incorrect |
| ProofPage.NullOutcomeShownIncorrect | components/proof-page.tsx:270-283 | a null outcome is shown "Incorrect" and "Verified" but is not on the incorrect tab |
| ProofPage.Page.constructor | components/proof-page.tsx:67-76 | the page starts loading with no predictions, no error, the "all" tab and zero metrics |
| ProofPage.Page.FetchPredictions | components/proof-page.tsx:79-135 | an accepted reply installs its predictions and their metrics; any failure installs the sample data, its metrics and the error message; loading ends either way |
| ProofPage.Page.SetActiveTab | components/proof-page.tsx:194 | a tab click sets the active tab |
| ProofPage.Page.Shown | components/proof-page.tsx:143-150 | the table shows exactly the predictions passing the active tab |
| ProofApi.InsertByTime | app/api/proof/route.ts:21 | inserting a row into the ordered list adds exactly one entry |
| ProofApi.InsertByTimeMultiset | app/api/proof/route.ts:21 | insertion keeps every row and adds the new one |
| ProofApi.InsertByTimeNewestFirst | app/api/proof/route.ts:21 | insertion keeps a newest-first list newest-first |
| ProofApi.SortByTime | app/api/proof/route.ts:21 | the ordered rows are a permutation of the table, with non-increasing timestamps |
| ProofApi.Select | app/api/proof/route.ts:7-22 | the query returns min(|table|, 100) rows of the table, newest first |
| ProofApi.SelectKeepsNewest | app/api/proof/route.ts:21-22 | a row the limit drops is no newer than any row it keeps |
| ProofApi.OrDefault | app/api/proof/route.ts:32-33 | `x \|\| default` gives the default exactly when x is missing, empty or the default itself, and otherwise x |
| ProofApi.FormatRow | app/api/proof/route.ts:29-41 | every field but the asset's name and symbol is copied verbatim; a missing joined asset gives "Unknown" and "UNKNOWN" |
| ProofApi.FormatRowKeepsAsset | app/api/proof/route.ts:32-33 | a joined asset with a non-empty name and symbol keeps them |
| ProofApi.Get | app/api/proof/route.ts:4-58 | success exactly when the query returns rows: then status 200 and one formatted row per fetched row in order; on error status 500, no predictions and the fixed message |
| ProofApi.GetOfTable | app/api/proof/route.ts:7-46 | a successful query answers with at most 100 predictions, newest first |
| NewsFeed.Dated | components/news-feed.tsx:43-49 | a fixed story keeps its id, title and category and is dated its number of hours before the base date |
| NewsFeed.DatedStories | components/news-feed.tsx:41-123 | one dated item per story of the table, in table order |
| NewsFeed.MockNews | components/news-feed.tsx:38-123 | a successful load yields the eight fixed stories |
| NewsFeed.BackupNews | components/news-feed.tsx:141-174 | the backup set holds the three fixed stories |
| NewsFeed.FixedStoriesShape | components/news-feed.tsx:41-174 | eight stories and three backup stories, the backups without AI insight, the eight listed newest first |
| NewsFeed.Headlines | components/news-feed.tsx:212-237 | each category has four headlines |
| NewsFeed.DynamicItem | components/news-feed.tsx:203-253 | the live story's category, sentiment, source and headline are picked in range from their lists, its id is "dynamic-" plus the time, and it carries the AI insight exactly when its draw exceeds 0.5 |
| NewsFeed.Prepend | components/news-feed.tsx:255 | the new story first, followed by the first min(n, 19) old stories in order |
| NewsFeed.PrependBounded | components/news-feed.tsx:255 | the result never exceeds 20 items, and a feed under 20 items loses nothing |
| NewsFeed.FilteredNews | components/news-feed.tsx:265 | "all" shows everything; any other tab shows exactly the stories of that category |
| NewsFeed.FilteredNewsInOrder | components/news-feed.tsx:265 | a tab keeps its stories in feed order |
| NewsFeed.RelativeTimeReadsBack | components/news-feed.tsx:268-281 | under 60 minutes the label reads back the minutes with "m ago", under 1440 the whole hours (1..23) with "h ago", otherwise the whole days with "d ago" |
| NewsFeed.MinuteLabelsDistinct | components/news-feed.tsx:274-275 | two labels in the minutes bucket are equal only for equal minute counts |
| NewsFeed.RelativeTimeBoundaries | components/news-feed.tsx:274-280 | 59 minutes reads "59m ago", 60 minutes "1h ago", 1440 minutes "1d ago" |
| NewsFeed.Feed.constructor | components/news-feed.tsx:20-26 | the feed starts empty, loading, on the "all" tab, with no failures counted |
| NewsFeed.Feed.FetchNews | components/news-feed.tsx:30-139 | a success installs the eight stories and resets the failure counter; a failure increments it and installs the backup stories only once it exceeds 2; loading ends and the feed stays within 20 items |
| NewsFeed.Feed.LiveTick | components/news-feed.tsx:192-262 | nothing on an empty feed or when the 20% chance fails; otherwise the live story is prepended; the feed stays within 20 items |
| NewsFeed.Feed.SetActiveCategory | components/news-feed.tsx:303 | a tab click sets the active category |
| NewsFeed.Feed.StartRefresh | components/news-feed.tsx:294-295 | the refresh button only raises the loading flag; the stories are not fetched again |
| NewsFeed.Feed.FinishRefresh | components/news-feed.tsx:296 | a second later the loading flag drops, nothing else changes |
| NewsFeed.Feed.Shown | components/news-feed.tsx:265 | the shown stories come from the feed and match the active tab, and "all" shows the feed itself |
| NasdaqFeed.MockQuotes | components/nasdaq-feed.tsx:14-37 | 21 quotes, none marked as prediction, each carrying its step's time label |
| NasdaqFeed.GenerateMockData | components/nasdaq-feed.tsx:14-37 | the loop from i = 20 down to 0 builds exactly those quotes, each the base moved by its random change and trend, rounded to cents |
| NasdaqFeed.HourLabel | components/nasdaq-feed.tsx:234 | a five-character label: the hour zero-padded to two digits, then ":00" |
| NasdaqFeed.GeneratePredictionDataPoints | components/nasdaq-feed.tsx:218-245 | five prediction points; point k is labelled (hour + k + 1) mod 24 and valued last + (k + 1) times a fifth of the gap to the prediction |
| NasdaqFeed.SegmentReachesPrediction | components/nasdaq-feed.tsx:230-235 | the fifth point equals the predicted value exactly, and the segment moves monotonically from the last quote towards it |
| NasdaqFeed.SegmentBetween | components/nasdaq-feed.tsx:230-235 | any two points of the segment lie between the last quote and the prediction, in order |
| NasdaqFeed.StepBetween | components/nasdaq-feed.tsx:235 | multiples 0..5 of a fixed increment are ordered by their factor |
| NasdaqFeed.LabelsAreHours | components/nasdaq-feed.tsx:233-234 | the two digits of each label read back as (hour + k + 1) mod 24 |
| NasdaqFeed.InitialConfidence | components/nasdaq-feed.tsx:205 | Math.round(70 + 25r) lies in 70..95 |
| NasdaqFeed.NudgedConfidence | components/nasdaq-feed.tsx:177 | the micro-update confidence is clamped into 65..99 |
| NasdaqFeed.NudgeKeepsConfidence | components/nasdaq-feed.tsx:177 | for an integer confidence already in 65..99 the nudge of less than 0.25 rounds back to the same value |
| NasdaqFeed.ChartData | components/nasdaq-feed.tsx:264 | the quotes followed by the prediction points; length the sum |
| NasdaqFeed.Feed.constructor | components/nasdaq-feed.tsx:40-53 | the card starts loading with no data, no prediction, zero values and no failures |
| NasdaqFeed.Feed.GeneratePrediction | components/nasdaq-feed.tsx:193-215 | the prediction is the last quote moved by the drawn change, the confidence is the rounded draw in 70..95, point k of the five-point segment is labelled k + 1 hours ahead and lies k + 1 fifths of the way from the last quote to the prediction, so the last point is the prediction; predicting ends |
| NasdaqFeed.Feed.LoadQuotes | components/nasdaq-feed.tsx:62-81 | the fresh quotes are installed, current and previous set from the last two |
| NasdaqFeed.Feed.GetNasdaqData | components/nasdaq-feed.tsx:57-90 | a load installs 21 quotes with current and previous from the last two and ends loading; a success also ends the initial load, installs the prediction, its rounded confidence and the five-point segment, and keeps the failure count, error and backup flag; a failure counts, sets the error banner, switches the backup system on once the count exceeds 2, and keeps the prediction, segment, confidence and initial-load flag |
| NasdaqFeed.Feed.RecordFailure | components/nasdaq-feed.tsx:73-86 | the error banner is set, the failure count grows by one and the backup system is on once it exceeds 2 |
| NasdaqFeed.Feed.MicroUpdate | components/nasdaq-feed.tsx:148-185 | skipped with no data, while loading or while predicting; otherwise only the last quote changes, previous becomes the old current, the prediction and confidence are nudged when present, the failure count resets and the length is kept |
| NasdaqFeed.Feed.Chart | components/nasdaq-feed.tsx:264 | the card's chart is its quotes followed by its prediction segment |
| PortfolioPredictions.PortfolioSeries | components/portfolio-predictions.tsx:10-32 | 31 history entries, oldest first, each dated by its day and holding the start value compounded by that day's and the earlier moves, rounded to cents |
| PortfolioPredictions.GeneratePortfolioData | components/portfolio-predictions.tsx:10-32 | the loop from i = 30 down to 0 builds exactly that series from the start value 10000 + 2000r |
| PortfolioPredictions.PowBounds | components/portfolio-predictions.tsx:49 | Math.pow of a non-negative factor is non-negative, and of a factor at least 1 is at least 1 |
| PortfolioPredictions.ForecastSeries | components/portfolio-predictions.tsx:35-58 | seven forecast entries, each dated by its day and holding the last value compounded by its own move i times, rounded to cents |
| PortfolioPredictions.GeneratePredictionData | components/portfolio-predictions.tsx:35-58 | the loop for i = 1..7 builds exactly that forecast |
| PortfolioPredictions.ForecastNonNegative | components/portfolio-predictions.tsx:48-49 | a non-negative last value gives a non-negative forecast, and a non-negative move gives one no lower than the last value |
| PortfolioPredictions.Combined | components/portfolio-predictions.tsx:226-237 | the history rows (value, no prediction) followed by the forecast rows (prediction, no value), in order; length the sum |
| PortfolioPredictions.CombinedSplits | components/portfolio-predictions.tsx:226-237 | exactly the first |history| rows carry a value and exactly the rest carry a prediction |
| PortfolioPredictions.InitialConfidence | components/portfolio-predictions.tsx:95 | Math.round(75 + 20r) lies in 75..95 |
| PortfolioPredictions.NudgedConfidence | components/portfolio-predictions.tsx:199 | the live confidence is clamped into 75..95 |
| PortfolioPredictions.NudgeMovesAtMostOne | components/portfolio-predictions.tsx:199 | a whole-number confidence within the clamp moves by at most one point per update |
| PortfolioPredictions.RefreshConfidence | components/portfolio-predictions.tsx:264 | the refresh's unrounded 75 + 20r lies in [75, 95) and rounds to the confidence a load draws from r |
| PortfolioPredictions.RefreshConfidenceUnrounded | components/portfolio-predictions.tsx:264 | the draw 0.01 gives 75.2 after a refresh and 75 after a load |
| PortfolioPredictions.BackupFigures | components/portfolio-predictions.tsx:115-138 | the backup set has five history and seven forecast entries, current 10500, start 9500, prediction 10850 and confidence 85 |
| PortfolioPredictions.TotalGain | components/portfolio-predictions.tsx:209 | the gain added to the start value gives the current value |
| PortfolioPredictions.GainPercent | components/portfolio-predictions.tsx:210-213 | the unguarded percentage is not a number exactly when its base is 0, and otherwise times the base gives the gain times 100 |
| PortfolioPredictions.PredictedGain | components/portfolio-predictions.tsx:212 | the predicted gain added to the current value gives the prediction |
| PortfolioPredictions.GainsCompose | components/portfolio-predictions.tsx:209-212 | gain so far plus predicted gain is the gain from start to prediction |
| PortfolioPredictions.Card.constructor | components/portfolio-predictions.tsx:61-71 | the card starts loading with empty series, zero figures and no failures |
| PortfolioPredictions.Card.LoadGenerated | components/portfolio-predictions.tsx:79-95 | the generated history and forecast are installed; current and start come from the history's ends, the prediction from the forecast's last entry, and the confidence from its draw |
| PortfolioPredictions.Card.ActivateBackup | components/portfolio-predictions.tsx:111-141 | the backup series and figures are installed, loading ends and the backup interval is on |
| PortfolioPredictions.Card.LoadData | components/portfolio-predictions.tsx:75-109 | a success installs the generated series, current and start from the history's ends, the prediction from the forecast's end and the rounded confidence, ends loading and resets the failure count, keeping the backup flag; a failure counts; past 2 failures it installs the backup series and figures (10500, 9500, 10850, 85) and ends loading; otherwise the card stays loading with its series, figures and flags unchanged |
| PortfolioPredictions.Card.LiveUpdate | components/portfolio-predictions.tsx:172-200 | skipped while loading; otherwise the value and prediction move by their drawn changes, only the last entry of each series is rewritten, lengths are kept and the confidence is nudged within 75..95 |
| PortfolioPredictions.Card.BackupTick | components/portfolio-predictions.tsx:147-151 | the backup interval scales value and prediction by their drawn factors within 0.2% |
| PortfolioPredictions.Card.StartRefresh | components/portfolio-predictions.tsx:254 | the refresh button raises the loading flag, which pauses the live updates |
| PortfolioPredictions.Card.FinishRefresh | components/portfolio-predictions.tsx:255-267 | a second later the generated series and figures are installed as a load does, with the unrounded refresh confidence; loading ends, the invariant is kept, and the failure count and the backup and initial-load flags are not touched |
| PortfolioPredictions.Card.Chart | components/portfolio-predictions.tsx:226-237 | the card's chart rows: the history rows carry values and the later forecast rows predictions |
| PredictionHistory.ChangeFactorRange | components/prediction-history.tsx:50-57 | a change factor 1 + (0.04r - 0.01) lies in [0.99, 1.03) |
| PredictionHistory.Accuracy | components/prediction-history.tsx:58 | 100 minus the absolute relative error in percent, so never above 100 |
| PredictionHistory.MockPredicted | components/prediction-history.tsx:37-51 | the predicted value is positive for every prediction type |
| PredictionHistory.ProductPositive | components/prediction-history.tsx:51-57 | a positive base times a positive factor is positive |
| PredictionHistory.GenerateMockPredictions | components/prediction-history.tsx:29-75 | the descending loop yields `count` records, record k being the mock record for day count - 1 - k with its own draws |
| PredictionHistory.MockRecordShape | components/prediction-history.tsx:33-71 | only the first (oldest) record lacks actual value and accuracy; every other has them; record k is dated count - 1 - k days back; the current value is positive, the confidence in [65, 95), the timeframe "24h" |
| PredictionHistory.MockRecordIdsDistinct | components/prediction-history.tsx:62 | records of different days get different ids |
| PredictionHistory.RatioBound | components/prediction-history.tsx:58 | a gap below 0.04 over a factor of at least 0.99 is below 0.05 in size |
| PredictionHistory.AccuracyOfMoves | components/prediction-history.tsx:50-58 | two moves of the same base differing by less than 4 points give an accuracy above 95 |
| PredictionHistory.MockAccuracyAbove95 | components/prediction-history.tsx:50-58 | every generated accuracy lies in (95, 100] |
| PredictionHistory.CalculateAccuracy | components/prediction-history.tsx:125-141 | total is the number of records with an accuracy; avg times total is the sum of their accuracies (so avg is their mean); positive and negative count those of them whose actual value (0 if absent) is at least, respectively below, the current value; with no such record every figure is 0 |
| PredictionHistory.UpPlusDownIsTotal | components/prediction-history.tsx:132-139 | the up and down counts add up to the total |
| PredictionHistory.DirectionRate | components/prediction-history.tsx:216-218 | with total 0 the displayed Direction Rate is 0 |
| PredictionHistory.DirectionRateOfSplit | components/prediction-history.tsx:216-218 | when the counts add up to a positive total the rate is 100 |
| PredictionHistory.DirectionRateIsFull | components/prediction-history.tsx:132-139 | whenever some record has an accuracy, the displayed Direction Rate is 100 |
| PredictionHistory.DivideBound | components/prediction-history.tsx:131 | a sum of at most c per item divided by the item count is at most c |
| PredictionHistory.AverageAtMost100 | components/prediction-history.tsx:125-141 | the average accuracy is at most 100 |
| PredictionHistory.AccuracySumAtMost | components/prediction-history.tsx:131 | n accuracies of at most hi sum to at most hi·n |
| PredictionHistory.AccuracySumAbove | components/prediction-history.tsx:131 | n > 0 accuracies above lo sum to more than lo·n |
| PredictionHistory.AverageBetween | components/prediction-history.tsx:125-141 | when every accuracy lies in (lo, hi] and some record has one, the mean accuracy lies in (lo, hi] |
| PredictionHistory.MockVerifiedAreTail | components/prediction-history.tsx:33-71 | on a generated list the records with an accuracy are exactly all records but the oldest, in order |
| PredictionHistory.MockAccuraciesAbove95 | components/prediction-history.tsx:50-58 | every accuracy on a generated list lies in (95, 100] |
| PredictionHistory.MockStats | components/prediction-history.tsx:29-141 | the statistics of a generated list count all records but the oldest, and with two or more records the mean accuracy lies in (95, 100] |
| PredictionHistory.ChartData | components/prediction-history.tsx:146-154 | exactly the records with an accuracy, in reverse order, each mapped to its chart point |
| PredictionHistory.ChartMatchesTotal | components/prediction-history.tsx:128-154 | the chart has as many points as the accuracy total, each with an accuracy |
| PredictionHistory.IsDirectionCorrect | components/prediction-history.tsx:336-341 | a row is direction-correct exactly when its actual value exists and (predicted > current) equals (actual > current) |
| PredictionHistory.LogRows | components/prediction-history.tsx:335 | the log shows the first min(10, n) records in order |
| PredictionHistory.Dialog.constructor | components/prediction-history.tsx:78-81 | the dialog starts closed on NASDAQ with no records, not loading |
| PredictionHistory.Dialog.LoadPredictions | components/prediction-history.tsx:83-94 | 30 generated records of the type are installed and loading ends |
| PredictionHistory.Dialog.HandleTypeChange | components/prediction-history.tsx:96-99 | the chosen type is set and its 30 records loaded |
| PredictionHistory.Dialog.HandleOpen | components/prediction-history.tsx:101-106 | the open flag follows the request; records are loaded only when opening with an empty list, and otherwise nothing else changes |
| TopPredictions.PriceMove | components/top-predictions.tsx:93 | the relative price move lies in [-0.5%, +0.5%) |
| TopPredictions.TargetMove | components/top-predictions.tsx:103 | the relative target move lies in [-0.2%, +0.2%) |
| TopPredictions.NextChange | components/top-predictions.tsx:95-100 | after rounding to cents the new change percentage is at least the old one minus 0.105 and below the old one plus 0.105 |
| TopPredictions.NextChangeReachesLowerBound | components/top-predictions.tsx:95-100 | the lower bound is reached: from -0.025 the draw 0 gives exactly -0.13 |
| TopPredictions.NextConfidence | components/top-predictions.tsx:104 | the new confidence is an integer in 60..99 and moves by at most one point from a confidence already in range |
| TopPredictions.UpdateAsset | components/top-predictions.tsx:92-106 | an asset keeps its symbol, name, direction and timeframe, and gets a confidence in 60..99 |
| TopPredictions.ScaleBetween | components/top-predictions.tsx:93-103 | a positive amount scaled by a factor in [lo, hi) lies in [lo, hi) times the amount |
| TopPredictions.NextPriceBounds | components/top-predictions.tsx:93-94 | the new price lies in [0.995, 1.005) times the old one |
| TopPredictions.NextTargetBounds | components/top-predictions.tsx:103 | the new target lies in [0.998, 1.002) times the old one |
| TopPredictions.UpdateAssetBounds | components/top-predictions.tsx:92-106 | a valid asset stays valid, its price and target within their bands |
| TopPredictions.Update | components/top-predictions.tsx:92-107 | the update keeps the number and order of the assets and each one's symbol, name, direction and timeframe, with every confidence in 60..99 |
| TopPredictions.InitialValid | components/top-predictions.tsx:9-70 | the five starting assets already have confidences in 60..99 and positive prices |
| TopPredictions.UpdatePreservesValid | components/top-predictions.tsx:90-111 | a tick keeps every asset valid and moves each price and target within its band |
| TopPredictions.Ticks | components/top-predictions.tsx:90-111 | repeated ticks keep the number of assets |
| TopPredictions.TicksKeepValid | components/top-predictions.tsx:90-111 | any number of ticks keeps a valid list valid |
| TopPredictions.AlwaysValid | components/top-predictions.tsx:9-111 | from the initial list, every later list has confidences in 60..99 and positive prices |
| Chat.Welcome | components/chat-interface.tsx:22-30 | the welcome message is the assistant's, with id "welcome" and the greeting text |
| Chat.Lead | components/chat-interface.tsx:81-89 | on the lower-cased question: bitcoin/crypto selects the crypto sentence first, then stock/nasdaq the stock sentence, then portfolio/invest the strategy sentence; no sentence exactly when none of the six keywords occurs |
| Chat.LeadIgnoresCase | components/chat-interface.tsx:81-85 | an upper-cased question gets the same topic sentence |
| Chat.Reply | components/chat-interface.tsx:49-89 | the reply is the topic sentence followed by one of the six sample answers |
| Chat.EverySampleReachable | components/chat-interface.tsx:78 | every sample answer is picked by some draw |
| Chat.TipMessage | components/chat-interface.tsx:233-240 | the tip is an assistant message stamped with the time, reading the tip prefix followed by one of the five tips |
| Chat.ChatBox.constructor | components/chat-interface.tsx:22-32 | the box starts with just the welcome message, an empty field and not loading |
| Chat.ChatBox.SetInput | components/chat-interface.tsx:179 | typing sets the field and nothing else |
| Chat.ChatBox.BeginSubmit | components/chat-interface.tsx:59-72 | a blank input or a pending reply adds nothing; otherwise the raw input is appended as the user's message, the field cleared and the box marked loading |
| Chat.ChatBox.FinishSubmit | components/chat-interface.tsx:77-99 | the reply to the sent text is appended with id now + 1 and loading ends |
| Chat.ChatBox.HandleSubmit | components/chat-interface.tsx:59-100 | a submit either changes nothing or appends exactly two messages, the user's raw input and then the reply to it, with earlier messages untouched |
| Chat.ChatBox.Reset | components/chat-interface.tsx:206-216 | only the welcome message is left |
| Chat.ChatBox.AddTip | components/chat-interface.tsx:224-242 | one tip message is appended and earlier messages are untouched |
| Splash.Step | components/splash-screen.tsx:11-17 | a full bar (100 or more) gives 100, any other grows by 5 |
| Splash.StepKeepsReachable | components/splash-screen.tsx:11-17 | from a multiple of 5 in 0..100 a step stays one, never decreases, grows below 100, and 100 is a fixed point |
| Splash.IterateFromBelow | components/splash-screen.tsx:10-18 | n ticks from a reachable p show min(p + 5n, 100) |
| Splash.FillsInTwentyTicks | components/splash-screen.tsx:7-18 | from 0 the bar is full after exactly 20 ticks, below 100 before, always a multiple of 5 in 0..100, and never decreasing |
| Splash.ProgressBar.constructor | components/splash-screen.tsx:7-10 | the bar starts at 0 with the interval running |
| Splash.ProgressBar.Tick | components/splash-screen.tsx:11-17 | each tick applies the step, and the interval stops exactly on a tick that finds the bar full |
| MarketSearch.Prefix | components/market-search.tsx:23-29 | substring(0, n) is the first min(n, length) characters of the query, counting Unicode scalar values |
| MarketSearch.RandomPrice | components/market-search.tsx:19-31 | Math.round(r * span + low) is an integer in low..low + span |
| MarketSearch.RandomChange | components/market-search.tsx:20-32 | the change, rounded to cents, lies within about 3 points of 0 |
| MarketSearch.MockSearch | components/market-search.tsx:10-37 | three results: the upper-cased query with " Corporation", its first character with "LTX" and " Industries Ltd.", its first two with "RK" and " Group Inc.", priced in 10..510, 20..220 and 15..315 |
| MarketSearch.SymbolsSharePrefix | components/market-search.tsx:17-29 | the second and third symbols begin with the first one's first one and two characters (fewer for a shorter query) and end in "LTX" and "RK" |
| MarketSearch.EveryFirstPriceReachable | components/market-search.tsx:19 | every integer price from 10 to 509 is produced by some draw |
| MarketSearch.Amplitude | components/market-search.tsx:73 | the daily amplitude is 1.5 exactly when the change is positive, and 0.8 otherwise |
| MarketSearch.History | components/market-search.tsx:64-81 | 31 days, 30 days ago first and today last |
| MarketSearch.MoveKeepsPositive | components/market-search.tsx:73-74 | a day's move of less than 1.5% keeps a positive price positive |
| MarketSearch.WalkPositive | components/market-search.tsx:68-80 | the running price of the walk stays positive |
| MarketSearch.GenerateHistory | components/market-search.tsx:60-83 | the loop from i = 30 down to 0 builds exactly the 31-day walk from the stock's price, each price in cents |
| MarketSearch.BarHeight | components/market-search.tsx:176 | the bar height is at most 80%, equals price / (1.2 times the stock price) as a percentage below that cap, and is non-negative for a non-negative price |
| MarketSearch.SearchCard.constructor | components/market-search.tsx:40-44 | the card starts with an empty query, no results, no selection and no history |
| MarketSearch.SearchCard.SetQuery | components/market-search.tsx:105 | typing sets the query and nothing else |
| MarketSearch.SearchCard.HandleSearch | components/market-search.tsx:46-58 | a blank query does nothing; otherwise the three mock results of the query replace the old ones and searching ends |
| MarketSearch.SearchCard.LoadStockData | components/market-search.tsx:60-127 | the clicked stock is selected and its 31-day history installed |
| MarketSearch.SearchCard.ClearSelection | components/market-search.tsx:213-216 | "Search Another Stock" drops the selection and its history, leaving the query and results |
| MarketSearch.SearchedHistoryBars | components/market-search.tsx:68-176 | for any searched stock the price is positive, its walk stays positive and every bar's height lies in 0..80% |
| AnalysisPanel.FilteredStocks | components/analysis-panel.tsx:18-35 | an empty query lists all seven stocks; any other lists exactly the stocks whose lower-cased symbol or name contains the lower-cased query, never more than seven |
| AnalysisPanel.FilteredStocksInOrder | components/analysis-panel.tsx:29-35 | the filtered list keeps the stock list's order (a subsequence of it) |
| AnalysisPanel.SymbolQueryFindsStock | components/analysis-panel.tsx:29-33 | a query equal to a stock's symbol up to case always lists that stock |
| AnalysisPanel.BaseValue | components/analysis-panel.tsx:52 | the chart's base is the selected stock's price, or 100 when that price is falsy (0) |
| AnalysisPanel.RandomChange | components/analysis-panel.tsx:59-60 | the daily change lies in [-2%, +2%) |
| AnalysisPanel.Volume | components/analysis-panel.tsx:66 | the rounded volume lies between 1,000,000 and 6,000,000 |
| AnalysisPanel.TechnicalSeries | components/analysis-panel.tsx:54-75 | the chart has 31 points, one per day from 30 days ago to today |
| AnalysisPanel.GenerateTechnicalData | components/analysis-panel.tsx:49-78 | the loop builds exactly the series defined point by point from the base value and each day's two draws |
| AnalysisPanel.LevelsFanOut | components/analysis-panel.tsx:61-65 | for a positive change the 50-day, 20-day and price levels climb away from the base in that order; for a negative change they fall away in the same order |
| AnalysisPanel.PointFansOut | components/analysis-panel.tsx:61-72 | after rounding to cents each point's base, sma50, sma20 and price are monotone one way or the other |
| AnalysisPanel.ChartShape | components/analysis-panel.tsx:54-75 | point k is 30 - k days old, its volume in 1,000,000..6,000,000, its levels fanned out from the base, and today's point shows the base itself for price and both averages |
| AnalysisPanel.BollingerBand | components/analysis-panel.tsx:317 | the band 0.95·price..1.05·price surrounds a positive price and is a tenth of it wide |
| AnalysisPanel.SupportResistance | components/analysis-panel.tsx:332-333 | support 0.9·price and resistance 1.1·price lie outside the Bollinger band and a fifth of the price apart |
| AnalysisPanel.PeRatio | components/analysis-panel.tsx:83 | the P/E ratio, rounded to cents, lies in 15..40 |
| AnalysisPanel.Valuation | components/analysis-panel.tsx:382-384 | a P/E above 20 reads "above" and "potentially overvalued", and exactly otherwise "below" and "potentially undervalued" |
| AnalysisPanel.BothValuationsOccur | components/analysis-panel.tsx:382-384 | some draw gives each of the two valuation wordings |
| AnalysisPanel.SentimentScore | components/analysis-panel.tsx:107-110 | each rounded sentiment score lies in 0..100 |
| AnalysisPanel.SentimentWording | components/analysis-panel.tsx:438-443 | "positive" exactly when the overall score is above 50 (else "mixed"), "strong interest" exactly when the institutional score is above 60 (else "cautious positioning"), "favorable" exactly when the news score is above 50 (else "neutral to negative") |
| AnalysisPanel.Panel.constructor | components/analysis-panel.tsx:12-15 | the panel starts with no query, no stock, not analysing, on the technical tab |
| AnalysisPanel.Panel.SetQuery | components/analysis-panel.tsx:184 | typing sets the query and nothing else |
| AnalysisPanel.Panel.SelectStock | components/analysis-panel.tsx:38-41 | selecting a stock records it and starts the analysis, leaving query and tab alone |
| AnalysisPanel.Panel.AnalysisDone | components/analysis-panel.tsx:43-45 | the timeout ends the analysis and changes nothing else |
| AnalysisPanel.Panel.SetActiveTab | components/analysis-panel.tsx:145-163 | a tab button sets the active tab and nothing else |

## Left out

- Timers, intervals, `setTimeout` delays and React effects are left out. Each callback is modelled as one method or function call made by the caller, in the order the caller chooses.
- Re-renders and stale closures are left out. The NASDAQ backup interval reads the empty `data` of the first render and throws on every tick, so it changes nothing; it is not modelled, and only its `backupActive` flag is. The portfolio-predictions backup interval updates through `prev =>` callbacks and is modelled as `PortfolioPredictions.Card.BackupTick`.
- `Math.random()` is left out; each draw is a parameter. The model proves bounds, not distributions.
- IEEE floating point is left out: `toFixed` artefacts, `parseFloat` rounding and NaN/Infinity propagation beyond the explicit not-a-number cases. Numbers are exact reals.
- `Intl.NumberFormat`, `toLocaleString`, `toLocaleDateString` and `Date` arithmetic are locale formatting and are left out. Dates are integer offsets, and clock readings are parameters.
- `fetch`, the Supabase client and the JSON body parser are left out. Their outcome is a parameter (status, content type, parsed body, or a failure flag). The database query is the abstract `ProofApi.Select`.
- ProofApi.Select: puts rows that share a timestamp in one fixed order, where the database leaves their order unspecified; its contract states only the length, the newest-first order and that the rows come from the table.
- Rendering is left out: recharts and Radix widgets, CSS classes, auto-scroll and input focus.
- The source's `try` blocks around purely local code cannot realistically throw. Whether they fail is a parameter, so the failure paths stay modelled.
- The source overwrites the last element of a freshly built array in place. These updates are modelled as sequence updates (`s[|s| - 1 := v]`). Aliasing between the array and state that was already rendered is not modelled.
- MarketSearch.Prefix: strings are sequences of Unicode scalar values, while `substring(0, n)` counts UTF-16 code units. For a query that starts with a character outside the Basic Multilingual Plane the source's prefixes split its surrogate pair (the second symbol of "𝔸b" starts with a lone high surrogate, the third is "𝔸RK"); the model keeps whole characters ("𝔸LTX", "𝔸BRK"). Queries made of BMP characters agree.
- Case mapping is ASCII-only. JavaScript's Unicode `toLowerCase`/`toUpperCase` are not modelled.
- Chat.ChatBox.BeginSubmit: the reply is appended by a separate `FinishSubmit`. Interleavings of other events during the wait are not constrained beyond what each method states.
- AnalysisPanel.PeRatio: models only the P/E part of `generateFundamentalData`. EPS, market cap, dividend, revenue and margin series are random display values with no logic.
- AnalysisPanel.SentimentScore: models only the four scores from `generateSentimentData`. The sentiment distribution and timeline are random display values.
- The indicator strings (RSI, MACD, volume) and the random "bullish"/"bearish", "strong"/"moderate" style words in the analysis text are random display choices and are not modelled.
- MarketSearch.RandomChange: states a band of ±3.005 around 0 for the rounded change rather than its exact rounding.
- MarketSearch.History: the function states the length and day labels. The prices are tied to the walk by `GenerateHistory` and bounded by `WalkPositive` and `SearchedHistoryBars`.
- Navigation and platform code is left out: the dashboard page and mobile navigation (tabs, scrolling, resize), the three.js hexagon background, the install prompt, and the root redirect.
