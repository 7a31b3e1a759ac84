# Financial dashboard front end: data and state model

A Dafny model of the logic inside a React financial dashboard. That logic covers five parts:
- turning wide financial-statement rows into dated chart series;
- the series windows, headline numbers, comparison and utilisation series, and the bars drawn for negative values;
- the company search on the dashboard;
- the route and authentication guard of the application;
- two page components: the balance-sheet company page and the PDF chat page.

The state of each modelled component becomes a class holding the modelled fields, and each modelled handler or effect becomes a method on it; the other fields and handlers are listed under "## Left out". The pure data routines are functions with lemmas.

| file | module | models |
|---|---|---|
| `common.dfy` | `Common` | `Option`, and the filter-then-map chain with the positions it keeps |
| `financial_series.dfy` | `FinancialSeries` | `src/components/FinancialDashboard.jsx` |
| `search.dfy` | `Search` | `searchStocks` and `handleCompanyClick` of `src/components/Dashboard.jsx` |
| `routes.dfy` | `Routes` | `src/App.jsx` |
| `company_page.dfy` | `CompanyPage` | `src/components/CompanyPage.jsx` |
| `chatbot_page.dfy` | `Chatbot` | `src/components/ChatbotPage.jsx` |

Modelling choices:
- Numbers are `real`.
- `new Date(label)` is a parameter `when: string -> int`, an arbitrary total order on period labels.
- `parseFloat` of a comma-free string is a parameter `parse: string -> Option<real>`, where `None` stands for NaN.
- JavaScript's `Array.prototype.sort` is stable. It is modelled as a stable insertion sort, and its stability is proved.
- A statement row is the sequence of its `Object.entries` pairs.
- Server replies are input datatypes, and so are the session entry and the navigation state. A search reply is the array's elements as JSON gives them (`null`, or a value with an id, a name and perhaps a string URL), and `Search.Settle` decides which of them make the filter or the map throw.
- JavaScript's string `length` counts UTF-16 code units; `Search.CodeUnits` counts them over Dafny's Unicode characters.
- `sessionStorage` and the browser's object-URL table are a `Browser` class holding a map and a set of live handles.

Three behaviours of the code that a reader may not expect, which the model follows:
- the search guard uses the length of the term as typed, not trimmed, counted in UTF-16 code units as JavaScript counts it;
- the symbol is the URL with its first `/company/` removed and then its first remaining `/` removed (not only a trailing slash);
- no route leads to the chat page (`Routes.NoChatbotRoute`).

## Model

| member | source | states |
|---|---|---|
| Common.FilterMap | src/components/FinancialDashboard.jsx:463-467 | a `filter` followed by a `map` is no longer than its input; `FilterMapSelects` and `FilterMapMembers` state which elements it keeps |
| Common.FilterMapSelects | src/components/Dashboard.jsx:104-111 | the results come from increasing positions, each accepted by the filter and mapped, and every accepted position is kept |
| Common.FilterMapMembers | src/components/FinancialDashboard.jsx:463-467 | a value is in the result exactly when it is the image of an accepted input element |
| FinancialSeries.SortPermutes | src/components/FinancialDashboard.jsx:80 | the sorted series is a permutation of the input (same multiset) |
| FinancialSeries.Insert | src/components/FinancialDashboard.jsx:80 | one point longer than the sorted input; what it adds is stated by `InsertPermutes`, and where it goes by `InsertSorted` and `InsertStable` |
| FinancialSeries.InsertPermutes | src/components/FinancialDashboard.jsx:80 | inserting adds exactly the one point to the multiset |
| FinancialSeries.InsertSorted | src/components/FinancialDashboard.jsx:80 | inserting into a date-sorted series keeps it date-sorted |
| FinancialSeries.InsertStable | src/components/FinancialDashboard.jsx:80 | the inserted point goes in front of the points that carry its timestamp |
| FinancialSeries.SortByDate | src/components/FinancialDashboard.jsx:80 | as many points as the input; `SortPermutes`, `SortIsSorted` and `SortIsStable` state its contents and order |
| FinancialSeries.SortIsSorted | src/components/FinancialDashboard.jsx:468 | the sorted series is in non-decreasing date order |
| FinancialSeries.SortIsStable | src/components/FinancialDashboard.jsx:468 | for every timestamp, the points carrying it keep their relative order |
| FinancialSeries.MonthsFor | src/components/FinancialDashboard.jsx:33-39 | every preset has a positive month count, and the count 999 belongs to `ALL` and to no other label |
| FinancialSeries.FilterDataByTime | src/components/FinancialDashboard.jsx:74-82 | empty for absent or empty data; the input unchanged and unsorted for `ALL`; otherwise min(months, length) points, date-sorted, drawn from the input, and exactly the last min(months, length) points of the stable date sort |
| FinancialSeries.SortedSuffix | src/components/FinancialDashboard.jsx:80-81 | a trailing slice of the sorted series is sorted and drawn from the input |
| FinancialSeries.WindowKeepsLaterTies | src/components/FinancialDashboard.jsx:80-81 | outside `ALL`, for every timestamp the window holds the last points of the input that carry it, in input order |
| FinancialSeries.AtTimeAppend | src/components/FinancialDashboard.jsx:80-81 | the points at a timestamp of a concatenation are those of each part, in order |
| FinancialSeries.WindowKeepsLatest | src/components/FinancialDashboard.jsx:80-81 | outside `ALL`, every point left out of the window is no later than every point kept |
| FinancialSeries.UnknownPeriodIsOneYear | src/components/FinancialDashboard.jsx:77 | a label that is no preset selects the same window as `1Y` |
| FinancialSeries.GrowthRate | src/components/FinancialDashboard.jsx:345-357 | 0 for fewer than two points or a zero previous value; otherwise rate × previous = (latest − previous) × 100 |
| FinancialSeries.GrowthRateRecoversLatest | src/components/FinancialDashboard.jsx:354-356 | applying the rate to the previous value gives back the latest; for a positive previous value the rate is positive exactly when the value rose |
| FinancialSeries.ValueOf | src/components/FinancialDashboard.jsx:348-352 | `getValue` reads `metric1` of a comparison point; on a single point it agrees with the `item.value` reading, with 0 for a missing value, of the comparison series |
| FinancialSeries.SumValues | src/components/FinancialDashboard.jsx:374-377 | the reduce starts at 0, and one point sums to its own value; `SumBounds` bounds it |
| FinancialSeries.LatestValue | src/components/FinancialDashboard.jsx:370-371 | the value of the last point as `getValue` reads it (metric1, otherwise value), 0 for no points |
| FinancialSeries.AverageValue | src/components/FinancialDashboard.jsx:373-378 | 0 for an empty window; otherwise average × length = the sum of the points' values |
| FinancialSeries.SumBounds | src/components/FinancialDashboard.jsx:374-377 | the sum of n values each in [lo, hi] lies in [n·lo, n·hi] |
| FinancialSeries.AverageWithinBounds | src/components/FinancialDashboard.jsx:373-378 | the average of a non-empty window lies between any lower and upper bound of its values |
| FinancialSeries.Get | src/components/FinancialDashboard.jsx:459 | a found cell belongs to an entry with that key; an absent key belongs to no entry |
| FinancialSeries.FindRow | src/components/FinancialDashboard.jsx:459-460 | the index of the first row whose `row_name` or `''` cell is the name, or none when no row is |
| FinancialSeries.LacksFirstChar | src/components/FinancialDashboard.jsx:463 | a string lacking the first character of a part does not contain that part |
| FinancialSeries.KeptColumn | src/components/FinancialDashboard.jsx:463 | a kept column is named, is not `row_name` and is not `TTM`; every other named label without a `T` is kept |
| FinancialSeries.ExampleColumns | src/components/FinancialDashboard.jsx:463 | quarter labels are kept; `TTM`, `row_name` and `''` are dropped |
| FinancialSeries.StripCommas | src/components/FinancialDashboard.jsx:466 | the result has no comma and is no longer than the cell |
| FinancialSeries.StripCommasAppend | src/components/FinancialDashboard.jsx:466 | stripping distributes over concatenation |
| FinancialSeries.StripCommasKeepsCommaFree | src/components/FinancialDashboard.jsx:466 | a comma-free cell is unchanged, so stripping removes the commas and keeps every other character in order |
| FinancialSeries.ExampleCells | src/components/FinancialDashboard.jsx:466 | `1,234` parses as 1234 |
| FinancialSeries.CellValue | src/components/FinancialDashboard.jsx:466 | a cell whose comma-stripped text parses to v gives v, and an unparseable one gives 0; so a nonzero value is always the parse of the comma-stripped cell |
| FinancialSeries.RowPoints | src/components/FinancialDashboard.jsx:462-467 | at most one point per entry of the row; `FilterMapSelects` and `FilterMapMembers` give the kept entries, in entry order |
| FinancialSeries.CommaFreeCellValue | src/components/FinancialDashboard.jsx:466 | `CellValue` parses a comma-free cell as it stands, and an unparseable one counts as 0 |
| FinancialSeries.TransformData | src/components/FinancialDashboard.jsx:456-460 | no data or no row with the metric name gives no points; `TransformDataSpec` states the rest |
| FinancialSeries.TransformDataSpec | src/components/FinancialDashboard.jsx:456-469 | empty without data or without a named row; otherwise the result is date-sorted, holds exactly the parsed kept cells of the first named row, and keeps row order among equal dates |
| FinancialSeries.Paired | src/components/FinancialDashboard.jsx:603-606 | one pair per point of the first series, at the same position |
| FinancialSeries.CombineSeries | src/components/FinancialDashboard.jsx:603-607 | at most one point per point of the first series; `CombineSeriesSpec` states which |
| FinancialSeries.CombineMetrics | src/components/FinancialDashboard.jsx:599-608 | both metrics come from the profit-and-loss statement; without a row for the first metric the series is empty, and it has at most one point per point of that metric |
| FinancialSeries.CombineSeriesSpec | src/components/FinancialDashboard.jsx:599-608 | kept pairs come from increasing positions of the first series, carry its date and value and the second series' value at that position (0 past its end); every dated position with a nonzero metric is kept |
| FinancialSeries.SalesByDate | src/components/FinancialDashboard.jsx:614 | the map's keys are the sales dates, and each date maps to the value of its last point |
| FinancialSeries.AssetUtilizationSeries | src/components/FinancialDashboard.jsx:614-621 | at most one point per asset point; `AssetUtilizationSpec` states which |
| FinancialSeries.CalculateAssetUtilization | src/components/FinancialDashboard.jsx:610-623 | sales from profit and loss against `Total Assets` from the balance sheet; no `Total Assets` row gives no points, and there is at most one point per asset point |
| FinancialSeries.AssetUtilizationSpec | src/components/FinancialDashboard.jsx:610-623 | in asset order, exactly the asset points with nonzero value and nonzero sales on their date, each valued sales / assets × 100 |
| FinancialSeries.JoinSpec | src/components/FinancialDashboard.jsx:616-622 | the same join stated for any sales map |
| FinancialSeries.UtilizationRecoversSales | src/components/FinancialDashboard.jsx:620 | the ratio times the assets is 100 times the sales |
| FinancialSeries.BarRect | src/components/FinancialDashboard.jsx:233-239 | loss colour for negative values, the series colour otherwise; the top edge is y for a non-negative value and y + height for a negative one; height is the absolute height; x and width are kept |
| FinancialSeries.BarCoversSignedSpan | src/components/FinancialDashboard.jsx:88-94 | a bar whose height has its value's sign covers exactly the span from y to y + height; with a series colour other than the loss colour, the fill is the loss colour exactly when the value is negative |
| Search.IndexOf | src/components/Dashboard.jsx:107 | the first position from i at which the pattern occurs, or none |
| Search.ReplaceFirst | src/components/Dashboard.jsx:107 | never longer than the input, and the input itself when the pattern does not occur; `ReplaceFirstSpec` states the cut |
| Search.ReplaceFirstSpec | src/components/Dashboard.jsx:107 | nothing changes without an occurrence; otherwise the first occurrence is cut out, and putting it back restores the string |
| Search.IndexOfFinds | src/components/Dashboard.jsx:107 | an occurrence preceded by none is what the search finds |
| Search.DeriveSymbol | src/components/Dashboard.jsx:107 | never longer than the URL, and the URL itself when it holds neither `/company/` nor `/`; `DeriveSymbolRoundTrip` gives the round trip |
| Search.DeriveSymbolRoundTrip | src/components/Dashboard.jsx:107 | the URL of a company, with or without trailing slash, gives back its symbol |
| Search.StripPrefix | src/components/Dashboard.jsx:107 | a leading `/company/` is removed |
| Search.SlashlessUnchanged | src/components/Dashboard.jsx:107 | a slash-free string loses nothing to the second replace |
| Search.HasId | src/components/Dashboard.jsx:104 | a hit with an absent id passes the filter and one with a `null` id does not |
| Search.Format | src/components/Dashboard.jsx:106-111 | name, id and URL are copied; the symbol is no longer than the URL |
| Search.Normalise | src/components/Dashboard.jsx:104-111 | at most one result per hit; `NormaliseSpec` states which |
| Search.NormaliseSpec | src/components/Dashboard.jsx:104-111 | the results are exactly the hits whose id is not `null`, in order, with name, id and URL copied and the symbol derived; empty exactly when every id is `null` |
| Search.ReplyError | src/components/Dashboard.jsx:97-125 | the error is empty exactly for an array reply with at least one normalised result |
| Search.Settle | src/components/Dashboard.jsx:94-125 | the catch is reached exactly on a failed request or on an array holding a `null` element or a kept element without a string URL; a non-array body is the format error; otherwise one hit per element, with its id, name and the URL of every element that passes the filter |
| Search.CodeUnits | src/components/Dashboard.jsx:85 | a JavaScript string length lies between the number of characters and twice that |
| Search.BmpCodeUnits | src/components/Dashboard.jsx:85 | a string of Basic Multilingual Plane characters is as long as its number of characters |
| Search.SearchPanel.constructor | src/components/Dashboard.jsx:56-58 | no results, no error, not loading |
| Search.SearchPanel.StartSearch | src/components/Dashboard.jsx:85-92 | a term shorter than two UTF-16 code units (JavaScript's `length`, see `CodeUnits`) clears results and error, leaves the loading flag and sends nothing; a longer one sends, clears the error and sets loading |
| Search.SearchPanel.FinishSearch | src/components/Dashboard.jsx:101-127 | loading ends; an array reply gives its normalised results, anything else none; the error is `ReplyError`'s message, except that a non-empty `Ok` reply leaves it as it was, which after `StartSearch` is empty |
| Search.SearchPanel.SearchStocks | src/components/Dashboard.jsx:84-128 | the whole search: guard, request, results and error in every branch |
| Search.AstralTermIsSent | src/components/Dashboard.jsx:85-92 | a one-character term beyond the Basic Multilingual Plane is two code units long and is sent |
| Search.NullElementFails | src/components/Dashboard.jsx:104-125 | a `null` element anywhere in the array ends the search with no results and the fetch error |
| Search.CompanyClick | src/components/Dashboard.jsx:146-148 | the navigation goes to `/company/` + symbol and hands over the company |
| Search.ClickLeadsToCompanyUrl | src/components/Dashboard.jsx:146-148 | selecting a hit with a company URL leads to that URL without its trailing slash |
| Routes.CompanySymbol | src/App.jsx:36 | a company path is the prefix and one non-empty segment without slash |
| Routes.KnownPath | src/App.jsx:32-38 | the four fixed paths are known, and every known path starts with `/` |
| Routes.Route | src/App.jsx:23-38 | spinner while loading; the forms only without a user, the dashboard only with one; no match exactly for the unknown paths once loaded |
| Routes.GuardedRoutes | src/App.jsx:33-37 | each fixed path's view or redirect for either authentication state |
| Routes.NotCompanyPath | src/App.jsx:36 | paths no longer than the prefix, and paths whose second character is not `c`, are no company paths |
| Routes.NoChatbotRoute | src/App.jsx:32-38 | `/chatbot` matches no route |
| Routes.CompanyRouteIgnoresAuth | src/App.jsx:36 | a company page renders whoever is signed in |
| Routes.RedirectsSettle | src/App.jsx:33-37 | a redirect target renders a page, with no second redirect |
| Routes.CompanyClickRenders | src/App.jsx:36 | the navigation after selecting a search hit renders that company's page |
| Routes.App.constructor | src/App.jsx:11-12 | no user, loading |
| Routes.App.OnAuthStateChanged | src/App.jsx:15-18 | the reported user is stored and loading ends |
| Routes.App.CurrentView | src/App.jsx:23-38 | the spinner while loading; the dashboard only for a user, the forms only for nobody |
| Routes.AuthSettles | src/App.jsx:14-35 | spinner before the first report; afterwards the dashboard for a user and a redirect to `/login` for none |
| CompanyPage.InitialSections | src/components/CompanyPage.jsx:14-18 | exactly assets, liabilities and equity, all open |
| CompanyPage.Toggle | src/components/CompanyPage.jsx:42-47 | the toggled map has the old keys and the toggled section |
| CompanyPage.ToggleSpec | src/components/CompanyPage.jsx:42-47 | the toggled section flips (an absent one becomes open); all other keys are kept |
| CompanyPage.ToggleTwice | src/components/CompanyPage.jsx:42-47 | toggling a present section twice restores the map |
| CompanyPage.ToggleTwiceKeepsOpenSections | src/components/CompanyPage.jsx:42-47 | toggling any section twice restores which sections are open; an absent section is left as a closed key |
| CompanyPage.CurrentReport | src/components/CompanyPage.jsx:66 | the report at the selected index when in range, the empty report otherwise |
| CompanyPage.CompanyView.constructor | src/components/CompanyPage.jsx:10-18 | loading, no company, no reports, period 0, the initial sections |
| CompanyPage.CompanyView.FetchData | src/components/CompanyPage.jsx:21-36 | the navigation's company is taken when present; the reports only on success; loading ends either way |
| CompanyPage.CompanyView.ToggleSection | src/components/CompanyPage.jsx:42-47 | the sections become the toggled map; nothing else changes |
| CompanyPage.CompanyView.SelectPeriod | src/components/CompanyPage.jsx:104 | the selected period is the chosen index; nothing else changes |
| CompanyPage.CompanyView.Current | src/components/CompanyPage.jsx:66 | the report at the selected period when it exists, the empty report otherwise |
| CompanyPage.OpenPage | src/components/CompanyPage.jsx:20-66 | a new page shows the navigation's company and the first returned report, or the empty report when none came |
| CompanyPage.RefetchAfterFailure | src/components/CompanyPage.jsx:31-40 | a failed re-fetch leaves the previous reports and selected period on show |
| Chatbot.Browser.constructor | src/components/ChatbotPage.jsx:34 | the given session store and no live object URLs |
| Chatbot.Browser.CreateObjectUrl | src/components/ChatbotPage.jsx:21 | a handle that was not live becomes live; the store is unchanged |
| Chatbot.Browser.Revoke | src/components/ChatbotPage.jsx:62 | the handle of an object URL is no longer live; nothing else changes |
| Chatbot.ChatbotPage.constructor | src/components/ChatbotPage.jsx:9-11 | empty URL, name and error; the cleanup captures the empty URL |
| Chatbot.ChatbotPage.Shown | src/components/ChatbotPage.jsx:92-116 | the error text exactly when there is an error; otherwise the viewer, with the page's URL and name, exactly when a document URL is held; otherwise the loading text |
| Chatbot.ChatbotPage.LoadPDF | src/components/ChatbotPage.jsx:14-47 | every branch: a handed-over file gets a new live URL, its name and a session record (or the load error and a redirect when storing fails); a stored record gives the name and the re-upload message; an unreadable one the load error and a redirect; none a redirect only |
| Chatbot.ChatbotPage.HandleDelete | src/components/ChatbotPage.jsx:59-64 | the session entry is gone, other entries are kept, the page's URL is released, and the page goes to the dashboard |
| Chatbot.ChatbotPage.HandleBack | src/components/ChatbotPage.jsx:66-68 | goes to the dashboard; store and live URLs unchanged |
| Chatbot.ChatbotPage.UnmountAsWritten | src/components/ChatbotPage.jsx:52-56 | releases only the URL captured at mount; the store and the handle counter are kept, and the browser stays consistent |
| Chatbot.ChatbotPage.UnmountCorrected | src/components/ChatbotPage.jsx:52-56 | releases the URL the page holds at unmount |
| Chatbot.ReloadNeedsReupload | src/components/ChatbotPage.jsx:19-38 | a handed-over file is shown under its name; after a reload the page asks for a new upload |
| Chatbot.NothingToLoad | src/components/ChatbotPage.jsx:39-41 | with no file and no record, the page goes to the dashboard and shows the loading text |
| Chatbot.LeakAsWritten | src/components/ChatbotPage.jsx:51-57 | as written, loading, going back and unmounting leaves the document's object URL live |
| Chatbot.LeaksAccumulate | src/components/ChatbotPage.jsx:51-57 | as written, two visits that each load a document and leave by Back leave both object URLs live |
| Chatbot.NoLeakCorrected | src/components/ChatbotPage.jsx:51-57 | with the corrected cleanup, the same steps release the document's object URL |
| Chatbot.DeleteReleases | src/components/ChatbotPage.jsx:59-64 | deleting releases the URL and forgets the session entry |

## Left out

- Network access is not modelled: the search endpoint, the statement endpoint and the balance-sheet request are inputs to the model (replies, `Option` results), not calls.
- Firebase authentication is not modelled (sign-in, sign-out, profile updates and `Login.jsx`/`SignUp.jsx`), apart from the user that the authentication callback reports.
- `useDebounce` and the timing of the search are not modelled. Overlapping search requests can settle out of order; that race is not modelled, and each search runs to completion on its own.
- Chart rendering with Recharts, chart-kind dispatch, the mini-chart's `slice(-12)`, and the hard-coded market, news and gainer lists are not modelled.
- Component state without a class: FinancialDashboard's `loading`, `error` and `stockData` and its `fetchData` effect, and MetricsList's `expandedItem`, `timePeriod` and `toggleExpanded`, are left out. They only move the network reply into the pure series routines, which are modelled, and toggle display flags.
- Dashboard state outside `SearchPanel`: `userName`, `userEmail`, `userPhoto` and `showProfileMenu` (profile display, fed by authentication) are left out. `searchQuery`, once debounced, is the `term` passed to `StartSearch` rather than a field.
- Number and date formatting (`toLocaleString`, `toFixed`, `Intl.NumberFormat`, `toLocaleDateString`) is not modelled.
- Floating point is not modelled: values are reals, so there is no NaN, no Infinity and no rounding. The final NaN filter of the utilisation series is not modelled.
- FinancialSeries.CellValue: `parseFloat`'s prefix parsing is not modelled; it is the abstract `parse`, whose NaN (`None`) counts as 0 as `|| 0` makes it.
- `new Date` is not modelled: labels are ordered by an abstract function assumed to give every label a timestamp.
- Rows whose cells are not strings are not modelled, nor JSON objects with duplicate keys or `Object.entries` ordering of integer-like keys. Cells are text and the entry order is the row's order.
- FinancialSeries.ValueOf: `getValue`'s last fallback (`return 0`, for a point with neither field) cannot occur with the point datatype.
- Routes: case-insensitive matching and trailing slashes in the router are not modelled.
- `app.py` (a stub server) and `vite.config.js` (dev-server proxy) are not part of this model.
- Session storage: JSON serialisation is reduced to a readable or unreadable record. A stored empty string and a record without a name are not modelled.
- `createObjectURL` failing on a non-file value is not modelled.
- React rendering is not modelled: renders, re-mounts, and the effect running twice in development mode.
- The PDF upload surface, its PDF type check and the remote insight client are not part of this model; the modelled files contain no such code.

## Findings

| source | as written | input that shows it | evidently intended | confidence | as-written member | corrected member |
|---|---|---|---|---|---|---|
| src/components/ChatbotPage.jsx:52-56 | the unmount cleanup tests the `pdfUrl` its closure captured when the effect first ran (the initial empty string of line 9, with dependencies `[]` at line 57), so it never revokes anything | open the page with a file in the navigation state, press Back, let the page unmount: the object URL made at line 21 stays live | revoke the object URL the page holds when it unmounts | not executed | Chatbot.LeakAsWritten | Chatbot.NoLeakCorrected |
