# Personal finance dashboard: data-shaping core

A Dafny model of the logic that shapes transaction data in a React personal
finance dashboard. What is not modelled is its rendering and its `fetch` calls.
The model covers:

- **Category colours** (`CategoryColor`): the eight-colour table and
  `getCategoryColor`. It trims the category, looks it up exactly, then tries an
  ordered cascade of case-insensitive keyword rules, with "Other" as the
  default.
- **Transactions service** (`TransactionsApi`):
  - the category-to-icon lookup;
  - the demonstration rules that assign one of seven accounts to a record;
  - the two transforms applied to the records the API returns. The bulk
    transform reassigns the account. The per-account transform keeps it.
- **Bundled data** (`TransactionData`): the thirteen demonstration
  transactions, and the purchase strip that `getRecentTransactionIcons` derives
  from them.
- **Transactions page** (`TransactionsView`):
  - the search filter on name and id;
  - `formatAmount`, which picks the sign, colour and decimals;
  - the rendered rows. The sort selector never affects them.
- **Dashboard service** (`DashboardApi`):
  - `findMostRecentMonths` over (year, month) values;
  - each month's spent and income totals, with their changes and percentage
    changes;
  - the expense pie chart, built from a category-to-amount response.

Shared primitives:

- `Text` models ASCII `toLowerCase`, ECMAScript `trim`, `includes` and
  first-letter capitalisation.
- `JsObject` models property access on an object literal, which also sees the
  members inherited from `Object.prototype`.
- `Lists` models `filter` and `slice(0, end)`.

Amounts are `real` numbers: an idealisation of JavaScript's binary floating
point. Strings are sequences of characters.

The transactions page shows a sort selector, but the code never applies it.
The search matches only the name and the id, and it does not trim the query.

## Model

| member | source | states |
|---|---|---|
| `Text.LowerIdempotent` | src/services/transactionsApi.ts:34 | lower-casing twice is lower-casing once |
| `Text.TrimIdempotent` | src/components/categoryColor.ts:14 | trimming a trimmed category changes nothing |
| `Text.TrimLowerCommute` | src/components/categoryColor.ts:14-22 | trimming then lower-casing equals lower-casing then trimming |
| `Text.TrimIsTrimmed` | src/components/categoryColor.ts:14 | a trimmed category neither starts nor ends with ECMAScript whitespace |
| `Text.Capitalize` | src/services/dashboardApi.ts:389 | the first character is upper-cased, the rest kept, and the length is unchanged |
| `JsObject.Get` | src/components/categoryColor.ts:17-18 | an own key yields its string; a missing key yields an inherited member exactly when its name is on Object.prototype, and `undefined` otherwise |
| `Lists.FilterIsSubsequence` | src/components/Transactions.tsx:10-13 | `filter` keeps the surviving elements in their original order |
| `Lists.FilterMembers` | src/components/Transactions.tsx:10-13 | `filter` keeps exactly the elements that pass the test, each as many times as it occurs in the input; an element that fails the test does not occur at all |
| `Lists.FilterAppend` | src/services/dashboardApi.ts:270-274 | filtering a concatenation is the concatenation of the filtered parts |
| `Lists.SliceTo` | src/services/transactionsApi.ts:179 | `slice(0, end)` is a prefix of length `min(end, n)`, counted from the back for a negative `end` |
| `CategoryColor.GetCategoryColor` | src/components/categoryColor.ts:1-48 | for every input the result is one of the eight table colours |
| `CategoryColor.TableColors` | src/components/categoryColor.ts:1-10 | the table's colours are exactly the eight palette colours, each under its category |
| `CategoryColor.KeywordColor` | src/components/categoryColor.ts:22-47 | the keyword `if` chain always yields one of the eight palette colours (its rule-table meaning is `KeywordColorFollowsRules`) |
| `CategoryColor.FirstMatchPrecedence` | src/components/categoryColor.ts:24-44 | the first matching rule decides the color |
| `CategoryColor.FirstMatchNone` | src/components/categoryColor.ts:46-47 | when no rule matches the outcome is "Other" |
| `CategoryColor.KeywordColorFollowsRules` | src/components/categoryColor.ts:24-47 | the `if` chain computes the colour of the first matching rule of the ordered rule table |
| `CategoryColor.ExactPhaseAgreesWithKeywords` | src/components/categoryColor.ts:17-19 | every table key reaches its own colour through the keyword rules as well, so the case-sensitive direct lookup never changes the outcome |
| `CategoryColor.ColorIsKeywordColor` | src/components/categoryColor.ts:12-48 | the colour depends only on the trimmed, lower-cased category |
| `CategoryColor.ColorFollowsRules` | src/components/categoryColor.ts:12-48 | the colour is the table colour of the first matching rule's category, "Other" if none matches |
| `CategoryColor.ColorIgnoresSurroundingWhitespace` | src/components/categoryColor.ts:14 | the colour of `s` equals the colour of `trim(s)` |
| `CategoryColor.ColorIsCaseInsensitive` | src/components/categoryColor.ts:22-44 | the colour of `s` equals the colour of `lower(s)` |
| `CategoryColor.FoodRuleWins` | src/components/categoryColor.ts:24-26 | any category containing "food" or "groceries" is Food & Groceries, whatever else it contains (e.g. "gas") |
| `CategoryColor.TransportRule` | src/components/categoryColor.ts:27-29 | "transport" or "gas" gives Transportation when the food rule does not apply |
| `CategoryColor.NoKeywordIsOther` | src/components/categoryColor.ts:46-47 | a category matching no keyword is Other, `#9B9B9B` |
| `CategoryColor.PaddedShopping` | src/components/categoryColor.ts:14-19 | " Shopping " is `#008083` |
| `CategoryColor.UpperCaseFood` | src/components/categoryColor.ts:22-26 | "FOOD stuff" is `#fd5901` |
| `CategoryColor.GasIsTransportation` | src/components/categoryColor.ts:27-29 | "gas" is Transportation |
| `CategoryColor.UtilitiesIsHousing` | src/components/categoryColor.ts:30-32 | "utilities" is Housing & Utilities |
| `CategoryColor.HealthIsHealthcare` | src/components/categoryColor.ts:39-41 | "health" is Healthcare |
| `CategoryColor.GetCategoryColorAsWritten` | src/components/categoryColor.ts:12-48 | the resolver as the code performs it: never `undefined`; a string equal to the corrected colour, or an inherited member exactly when the trimmed category is an Object.prototype name |
| `CategoryColor.AsWrittenAgreesOffPrototype` | src/components/categoryColor.ts:17-19 | away from Object.prototype names, the code's lookup gives the corrected colour |
| `CategoryColor.PrototypeNameEscapesColorTable` | src/components/categoryColor.ts:17-19 | "toString" gets the inherited function, not a colour (see Findings) |
| `TransactionsApi.GetCategoryIcon` | src/services/transactionsApi.ts:4-36 | always one of the map's twelve icons; a lower-cased category that is not a key gets the card icon |
| `TransactionsApi.IconMapValues` | src/services/transactionsApi.ts:5-31 | the map's icons are exactly the twelve icons; "default" is the card icon |
| `TransactionsApi.IconIsCaseInsensitive` | src/services/transactionsApi.ts:34-35 | the icon of `c` equals the icon of `lower(c)` |
| `TransactionsApi.LowerCaseKeyReached` | src/services/transactionsApi.ts:34-35 | every key without capitals is reached by itself |
| `TransactionsApi.CapitalisedKeyUnreachable` | src/services/transactionsApi.ts:5-31 | no lower-cased category equals a key holding a capital, so such keys are dead |
| `TransactionsApi.FoodAndGroceriesGetsDefaultIcon` | src/services/transactionsApi.ts:6 | "Food & Groceries" is a key, yet it gets the card icon |
| `TransactionsApi.TransferGetsBankIcon` | src/services/transactionsApi.ts:23-24 | "Transfer" gets the bank icon |
| `TransactionsApi.UpperCaseGasGetsFuelPumpIcon` | src/services/transactionsApi.ts:11 | "GAS" gets the fuel pump icon |
| `TransactionsApi.GetCategoryIconAsWritten` | src/services/transactionsApi.ts:33-35 | the lookup as the code performs it: a string equal to the corrected icon, or an inherited member exactly when the lower-cased category is an Object.prototype name and not a key |
| `TransactionsApi.IconAsWrittenAgreesOffPrototype` | src/services/transactionsApi.ts:34-35 | away from Object.prototype names, the code's lookup gives the corrected icon |
| `TransactionsApi.ConstructorEscapesIconMap` | src/services/transactionsApi.ts:34-35 | "Constructor" gets the inherited `constructor` function, not an icon (see Findings) |
| `TransactionsApi.AssignAccount` | src/services/transactionsApi.ts:39-70 | the account is one of the seven. Each account gets exactly the records its rule describes: acc-002 iff the food rule; acc-003 iff transport and not food; then deposits by index parity, small purchases by parity, large ones by index mod 3 |
| `TransactionsApi.FallThroughAccounts` | src/services/transactionsApi.ts:58-69 | records no category rule claims go to checking when positive, to a credit card when above -100, and to checking or savings otherwise |
| `TransactionsApi.AssignmentPeriodic` | src/services/transactionsApi.ts:58-69 | the assignment repeats every six indices |
| `TransactionsApi.TransformTransactions` | src/services/transactionsApi.ts:166-172 | length and order are kept; record `i` gets its account from the rules at index `i` |
| `TransactionsApi.TransactionsPayload` | src/services/transactionsApi.ts:175-179 | `recent` is the first `min(5, n)` transformed records |
| `TransactionsApi.AccountTransactions` | src/services/transactionsApi.ts:299-309 | length is kept and every record keeps the account id the API sent |
| `TransactionsApi.AccountTransformDiffersOnlyInAccount` | src/services/transactionsApi.ts:299-309 | the per-account transform equals the bulk one except for the account id |
| `TransactionData.FixtureIdsDistinct` | src/data/transactions.ts:12-130 | no two bundled transactions share an id |
| `TransactionData.RecentIcons` | src/data/transactions.ts:141-146 | as many items as `slice(0, limit)` keeps of the purchases: at most `limit`, exactly `limit` when enough purchases exist, never more than the purchases. Item `i` is the projection of the `i`-th purchase in list order, so every item comes from a payment with a negative amount |
| `TransactionData.GetRecentTransactionIcons` | src/data/transactions.ts:141-146 | with the default limit 6: as many items as `slice(0, limit)` keeps of the bundled purchases, and item `i` is the projection of the `i`-th bundled purchase |
| `TransactionData.FixturePurchases` | src/data/transactions.ts:12-130 | the bundled list holds eight purchases: Internet, Wholefoods, Starbucks, Gas, Trader Joe, Jewel Osco, Bobashop and Spotify, in that order |
| `TransactionData.DefaultStrip` | src/data/transactions.ts:23-84 | with the default limit the strip shows Internet, Wholefoods, Starbucks, Gas, Trader Joe and Jewel Osco |
| `TransactionsView.FilterTransactions` | src/components/Transactions.tsx:10-13 | the result is a subsequence of the list; a transaction is kept iff the lower-cased term occurs in its lower-cased name or id, and a kept transaction appears as many times as in the list |
| `TransactionsView.EmptySearchKeepsAll` | src/components/Transactions.tsx:10-13 | an empty search term keeps every transaction |
| `TransactionsView.SearchIsCaseInsensitive` | src/components/Transactions.tsx:11-12 | the term and its lower-case form find the same transactions |
| `TransactionsView.SearchTermNotTrimmed` | src/components/Transactions.tsx:11-12 | "gas" finds the Gas purchase, " gas" does not |
| `TransactionsView.FormatAmount` | src/components/Transactions.tsx:15-22 | sign "+" and green iff the amount is >= 0, otherwise no sign and red. The magnitude is |amount|. Two decimals iff the amount is negative and not whole, otherwise none |
| `TransactionsView.AmountReadBack` | src/components/Transactions.tsx:15-22 | the amount can be read back from the colour and the magnitude |
| `TransactionsView.WholeAmountsHaveNoDecimals` | src/components/Transactions.tsx:19 | a whole amount of either sign is shown without decimals |
| `TransactionsView.RenderedRows` | src/components/Transactions.tsx:77 | the rows are the filtered transactions, one each, in filtered order |
| `TransactionsView.SortSelectionIgnored` | src/components/Transactions.tsx:8 | the rendered rows are the same for every sort selection |
| `TransactionsView.EmptySearchRendersInOrder` | src/components/Transactions.tsx:8-13 | for any list, with no search the table has one row per transaction, row `i` showing the `i`-th transaction, whatever sort is selected |
| `TransactionsView.EmptySearchRendersFixtureInOrder` | src/components/Transactions.tsx:8-13 | with no search the table lists the bundled transactions in list order, whatever sort is selected |
| `DashboardApi.BeforeIsIndexOrder` | src/services/dashboardApi.ts:41-46 | the month order is the order of the month indices, so it is a strict total order |
| `DashboardApi.PreviousCalendarMonth` | src/services/dashboardApi.ts:67 | the result is the month whose index is one less, so January rolls back to December |
| `DashboardApi.PreviousIsImmediatelyBefore` | src/services/dashboardApi.ts:67 | the previous calendar month is earlier, and no month lies strictly between the two |
| `DashboardApi.FindMostRecentMonths` | src/services/dashboardApi.ts:35-74 | `current` is the latest month present. `previous` is the latest other month present, or the calendar month before `current` when there is none. `previous` is before `current`. With no transactions they are `today` and the month before it |
| `DashboardApi.TwoLatest` | src/services/dashboardApi.ts:46-64 | the first two entries of the set sorted newest first |
| `DashboardApi.Latest` | src/services/dashboardApi.ts:46-58 | the latest month of a non-empty set |
| `DashboardApi.MostRecentMonthsUnique` | src/services/dashboardApi.ts:35-74 | the two months are fully determined by the transactions and `today` |
| `DashboardApi.NoTransactionsComparesToday` | src/services/dashboardApi.ts:48-54 | with no transactions the months are `today` and the calendar month before it |
| `DashboardApi.InMonth` | src/services/dashboardApi.ts:254-264 | the month's transactions as a subsequence in their original order: every kept transaction falls in the month, and every transaction of the month is kept as many times as it occurs |
| `DashboardApi.TotalSpent` | src/services/dashboardApi.ts:270-271 | the sum of the magnitudes of the negative amounts is never negative |
| `DashboardApi.TotalIncome` | src/services/dashboardApi.ts:272-274 | the income total is never negative |
| `DashboardApi.TotalSpentAppend` | src/services/dashboardApi.ts:270-271 | spending adds up over a split of the transactions |
| `DashboardApi.TotalIncomeAppend` | src/services/dashboardApi.ts:272-274 | income adds up over a split of the transactions |
| `DashboardApi.OneMoreSpent` | src/services/dashboardApi.ts:270-271 | one more transaction adds its magnitude to spending iff it is an expense |
| `DashboardApi.OneMoreIncome` | src/services/dashboardApi.ts:272-274 | one more transaction adds its amount to income iff it is positive and has category "income" or a salary or paycheck description; other positive amounts, such as transfers, add nothing |
| `DashboardApi.SpentIffExpense` | src/services/dashboardApi.ts:270-271 | a month spends something iff it has an expense |
| `DashboardApi.PercentChange` | src/services/dashboardApi.ts:288-290 | 0 when the previous total is 0; otherwise it has the sign of the change |
| `DashboardApi.PercentRoundTrip` | src/services/dashboardApi.ts:288 | growing the previous total by the percentage gives the current total back |
| `DashboardApi.TotalsOf` | src/services/dashboardApi.ts:292-306 | name and year of the month, its spent and income totals (both >= 0), and net == income - spent |
| `DashboardApi.Summarize` | src/services/dashboardApi.ts:287-313 | the changes are current minus previous, and each percentage is `PercentChange` of its change over the previous total, so it is 0 when that total is 0 and otherwise has the sign of the change. The net change is the income change minus the spending change |
| `DashboardApi.SpendingSummary` | src/services/dashboardApi.ts:243-313 | the summary compares the months `findMostRecentMonths` picks: the latest month present, and the latest other month present or else the calendar month before it. The current year is the latest year present |
| `DashboardApi.DisplayName` | src/services/dashboardApi.ts:376-389 | a label is empty iff the category is; an unmapped category is capitalised |
| `DashboardApi.DisplayNameOfMappedKey` | src/services/dashboardApi.ts:389 | mapped categories are recognised in any letter case |
| `DashboardApi.GasIsTransportation` | src/services/dashboardApi.ts:380 | "gas" and "GAS" are labelled "Transportation" |
| `DashboardApi.DisplayNameAsWritten` | src/services/dashboardApi.ts:389 | the label as the code computes it: a string equal to the corrected label, or an inherited member exactly when the lower-cased category is an Object.prototype name and not a mapping key |
| `DashboardApi.DisplayNameAsWrittenAgreesOffPrototype` | src/services/dashboardApi.ts:389 | away from Object.prototype names, the code's label is the corrected label |
| `DashboardApi.ConstructorLabel` | src/services/dashboardApi.ts:389 | "constructor" is labelled with the inherited function, not "Constructor" (see Findings) |
| `DashboardApi.PieIsParallel` | src/services/dashboardApi.ts:372-396 | labels and data have equal length; every slice is positive and comes from an entry with that display name and magnitude |
| `DashboardApi.PieLabelsAppend` | src/services/dashboardApi.ts:388-396 | the entries are processed one at a time: the labels of two runs of entries are the labels of the first run followed by those of the second |
| `DashboardApi.PieDataAppend` | src/services/dashboardApi.ts:388-396 | likewise for the data |
| `DashboardApi.PieOfOne` | src/services/dashboardApi.ts:388-395 | a single entry yields one slice, its display name and magnitude, exactly when its amount is not zero |
| `DashboardApi.ZeroAmountDropped` | src/services/dashboardApi.ts:390-395 | a category with a zero amount gets no slice wherever it is listed: the chart is that of the other entries |
| `DashboardApi.NonZeroAmountKept` | src/services/dashboardApi.ts:388-395 | a category with a non-zero amount gets a slice in its own position, labelled with its display name and sized by the magnitude of its amount |
| `DashboardApi.PieChart` | src/services/dashboardApi.ts:372-396 | the pushed labels and data are the display names and magnitudes of the non-zero entries, in entry order |

## Left out

- The HTTP requests. This covers `fetch`, status handling, JSON parsing,
  headers, logging and the hardcoded fallback payloads returned on error. Parsed
  records are taken as inputs. This is network I/O and constants.
- `generateTime` reads the wall clock. It is a `now` parameter, and the
  transforms call it once for all records rather than once per record.
- `findMostRecentMonths` reads the clock when there are no transactions. A
  `today` parameter stands in. The model returns `today` as the current month
  and the calendar month before it as the previous month, as the code does
  (`DashboardApi.NoTransactionsComparesToday`).
- Date parsing (`new Date(string)`) and the locale formatting of dates and
  times are left out. Each dashboard transaction carries the (year, month) it
  falls in, and its `accountId` is omitted because no derivation reads it.
- The code sorts "YYYY-MM" strings. For four-digit years this is chronological
  order, which is the order the model uses. Years outside 1000-9999, and the
  two-digit years that `new Date(y, m, 1)` shifts into the 1900s, are not
  modelled.
- Floating-point rounding, `toFixed` digit rendering and `NaN` from
  `Number(amount)` are left out. `FormatAmount` models the decision (sign,
  magnitude, decimal count, colour), not the rendered text.
- Case mapping is ASCII only. Full Unicode `toLowerCase` and `toUpperCase` are
  not modelled, and icon glyphs are opaque strings.
- Undefined or null `category` and `description` fields are not modelled: the
  optional chaining of the account rules and the `TypeError` of the icon
  lookup. Records carry strings.
- `Object.entries` lists keys in its own order. The pie chart takes the
  entries in the order given.
- A fractional `limit` to `slice` is not modelled. The limit is an integer.
- The JSX components, the other services and `getTransactionsByMonth` are not
  part of this model. They are markup or a date parse.
- The race between overlapping account-switch fetches is not modelled. It is
  concurrency.

## Findings

| source | as written | input that shows it | evidently intended | confidence | as-written member | corrected member |
|---|---|---|---|---|---|---|
| src/components/categoryColor.ts:17-19 | `CATEGORY_COLORS[normalizedCategory]` also finds the members inherited from Object.prototype, and a function is truthy | category "toString" returns the inherited `toString` function | a colour string; "toString" matches no keyword, so Other `#9B9B9B` | not executed | `CategoryColor.PrototypeNameEscapesColorTable` | `CategoryColor.GetCategoryColor` |
| src/services/transactionsApi.ts:34-35 | `categoryMap[lowerCategory]` also finds inherited members | category "Constructor" (or "constructor") returns the `Object` constructor function | the default card icon | not executed | `TransactionsApi.ConstructorEscapesIconMap` | `TransactionsApi.GetCategoryIcon` |
| src/services/dashboardApi.ts:389 | `categoryMapping[category.toLowerCase()]` also finds inherited members | a pie entry "constructor" pushes the `Object` constructor function as its label | the label "Constructor" | not executed | `DashboardApi.ConstructorLabel` | `DashboardApi.DisplayName` |
