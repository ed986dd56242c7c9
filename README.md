# Boarding-house billing: a verified model

This project models the billing core of a small boarding-house manager
(four rooms, rented per occupant, electricity metered per room). The core
is three React hooks:

- **The monthly-data hook** (`src/hooks/useMonthlyData.ts`) does four things:
  - keeps a selected month ("YYYY-MM") and the bills shown for it;
  - fetches a month's rows from the `monthly_bills` table;
  - when the month is empty, seeds it, either by rolling over last month's
    rows (last month's closing meter reading becomes the opening one) or
    with four empty default rooms;
  - updates a single bill optimistically, fetching again when the store
    refuses the update.

  It also computes each bill: rent, water, electricity, the total and a
  per-person share.
- **The analytics hook** (`src/hooks/useAnalytics.ts`) builds a six-month
  overview around a base month: per month, the usage and revenue of rooms 1
  to 4, the month's total revenue and a chart label such as "T3/25".
- **The boarding-house hook** (`src/hooks/useBoardingHouse.ts`) keeps four
  rooms locally. It merges partial updates into a room and carries its own
  copy of the bill calculator.

Where the hooks change state, the model is a class whose fields are that
state: `MonthlyDataHook`, `AnalyticsHook` and `BoardingHouseHook`. Each
method is proved against a function that states what it computes, and the
properties the program relies on are proved about those functions.

The remote `monthly_bills` table is modelled in memory: a sequence of rows
plus the next id it will hand out. Whether a remote call fails is a
parameter of the operation.

The files are:
- `types.dfy`: record shapes, fixed rates, the object spread.
- `digits.dfy`: decimal text of numbers.
- `month_keys.dfy`: month keys, the previous month, labels.
- `billing.dfy`: the calculator.
- `store.dfy`: the table, its queries and its updates.
- `monthly_data.dfy`: the monthly-data hook.
- `analytics.dfy`: the analytics hook.
- `boarding_house.dfy`: the boarding-house hook.

The type comments at `src/types/index.ts:9-10` and the constants at
`src/types/index.ts:33-36` name default rates of 5000 per kWh and 80000
per person. The code never reads a stored rate:
- the seed payload at `src/hooks/useMonthlyData.ts:84-100` names only the
  room, month, occupants and readings;
- the calculators hard-code the rates;
- no operation marks a bill unpaid or updates rates in bulk.

The model follows the code.

## Model

| member | source | states |
|---|---|---|
| Types.MergeBillIdempotent | src/hooks/useMonthlyData.ts:132 | spreading the same partial bill over a bill twice gives the same bill as once |
| Types.MergeBillNoChanges | src/hooks/useMonthlyData.ts:132 | spreading an empty partial bill changes nothing |
| Types.MergeBill | src/hooks/useMonthlyData.ts:132 | no contract of its own: defined field by field as the spread `{ ...b, ...updates }`, a field the patch sets overriding the bill's; MergeBillIdempotent and MergeBillNoChanges state idempotence and the empty patch only, not the override itself |
| Billing.Usage | src/hooks/useMonthlyData.ts:13 | usage is never negative, is at least new − old, and is either 0 or exactly new − old |
| Billing.Calculate | src/hooks/useMonthlyData.ts:13-24 | cost = usage × 5000, water = occupants × 80000, rent = occupants × 1000000, total = rent + water + electricity; the per-person share is 0 with no occupants, and otherwise times the occupants gives back the total |
| Billing.CalculateBill | src/hooks/useMonthlyData.ts:12-34 | absent occupants and readings count as 0 and the bill's own rate fields play no part; with no occupants, water, rent and the share are 0 |
| Billing.PerPersonShare | src/hooks/useMonthlyData.ts:21-24 | 1,080,000 plus an even split of the electricity, times the occupants, is the room total |
| Billing.PerPersonExact | src/hooks/useMonthlyData.ts:23 | with 1 or 2 occupants the share is a whole number: the electricity cost divides evenly |
| Billing.CalculateExample | src/hooks/useMonthlyData.ts:12-34 | 2 occupants, readings 100 → 150: usage 50, total 2,410,000, share 1,205,000 |
| Digits.NatToString | src/hooks/useMonthlyData.ts:66 | `String(n)` is a digit run with no leading zero that denotes n |
| Digits.PadZeros | src/hooks/useMonthlyData.ts:66 | `padStart(w, '0')` reaches width w, keeps longer texts unchanged, and keeps a digit run a digit run |
| Digits.PadZerosValue | src/hooks/useMonthlyData.ts:66 | zero padding does not change the number a digit run denotes |
| Digits.DigitsValueInjective | src/hooks/useAnalytics.ts:60 | two digit runs of equal length that denote the same number are equal |
| Digits.LeadingDigits | src/hooks/useAnalytics.ts:60 | what `parseInt` reads: the longest prefix of the text made of digits, so the next character, if any, is not a digit |
| MonthKeys.AddMonths | src/hooks/useAnalytics.ts:31 | moving k months gives a valid calendar month whose month index is shifted by exactly k |
| MonthKeys.FormatKey | src/hooks/useAnalytics.ts:32 | no contract of its own: `format(date, 'yyyy-MM')`; ParseFormatKey proves that for years 1 to 9999 it reads back as the month it was made from, so different months give different keys |
| MonthKeys.JsYear | src/hooks/useMonthlyData.ts:65 | no contract of its own: `new Date(year, …)` reads a year from 0 to 99 as 1900 to 1999; PreviousMonthKeyTwoDigitYear shows the effect |
| MonthKeys.BeforeDash | src/hooks/useMonthlyData.ts:64 | the first piece of `split('-')`: a prefix of the key without a dash, followed in the key by a dash when it is shorter than the key |
| MonthKeys.PreviousMonthByIndex | src/hooks/useMonthlyData.ts:65 | going back one month is the calendar's previous month: January becomes December of the year before |
| MonthKeys.AfterDash | src/hooks/useMonthlyData.ts:64 | there is a part after the first dash exactly when the key contains a dash, and the key is the part before, the dash, and the part after |
| MonthKeys.ParseMonthKey | src/hooks/useMonthlyData.ts:64 | a readable key gives a year and a month of at most four digits |
| MonthKeys.ParseFormatKey | src/hooks/useAnalytics.ts:32 | reading back a formatted key gives the month it was made from (years 1 to 9999) |
| MonthKeys.PreviousMonthKeyInvalid | src/hooks/useMonthlyData.ts:63-65 | the previous key is "NaN-NaN" exactly when the key cannot be read |
| MonthKeys.PreviousMonthKey | src/hooks/useMonthlyData.ts:63-65 | no contract of its own: the previous-month key as the fetch routine builds it; pinned down by PreviousMonthKeyInvalid, PreviousMonthKeyOfKey, PreviousMonthKeyOfJanuary, PreviousMonthKeyUnpadded and PreviousMonthKeyTwoDigitYear |
| MonthKeys.PreviousMonthKeyOfKey | src/hooks/useMonthlyData.ts:63-65 | for a key of a year 1000–9999, the previous key is the key of the previous calendar month, with a two-digit month |
| MonthKeys.PreviousMonthKeyOfJanuary | src/hooks/useMonthlyData.ts:63-65 | "YYYY-01" goes back to "(YYYY−1)-12" |
| MonthKeys.PreviousMonthKeyUnpadded | src/hooks/useMonthlyData.ts:63-65 | below year 1000 the year of the previous key is not padded: "0999-05" gives "999-04", which is not a well-formed key |
| MonthKeys.PreviousMonthKeyTwoDigitYear | src/hooks/useMonthlyData.ts:63-65 | a year from 0 to 99 is read as 1900 to 1999: "0099-01" gives "1998-12" |
| MonthKeys.MonthDisplayOfKey | src/hooks/useAnalytics.ts:60 | the label of a formatted key is "T", the month without leading zero, "/", and the year modulo 100 as two digits |
| MonthKeys.MonthDisplay | src/hooks/useAnalytics.ts:60 | no contract of its own: the chart label of a key; MonthDisplayOfKey proves it is `T{m}/{yy}` for every formatted key of a year from 1 to 9999 |
| Store.RowsOfMonth | src/hooks/useMonthlyData.ts:45 | a row is kept exactly when it is in the table and belongs to the month |
| Store.RowsOfMonthCount | src/hooks/useMonthlyData.ts:45 | filtering keeps each row of the month as often as the table holds it and drops every other row |
| Store.InsertByRoom | src/hooks/useMonthlyData.ts:46 | inserting into rows ordered by room keeps them ordered and adds one row |
| Store.InsertByRoomPermutes | src/hooks/useMonthlyData.ts:46 | inserting adds exactly that row to the multiset of rows |
| Store.SortByRoom | src/hooks/useMonthlyData.ts:46 | `.order('room_id')` gives rows ordered by room, as many as it was given |
| Store.SortByRoomPermutes | src/hooks/useMonthlyData.ts:46 | ordering by room is a permutation |
| Store.SortByRoomSorted | src/hooks/useMonthlyData.ts:110 | ordering rows that are already ordered changes nothing |
| Store.SortedByRoomPairwise | src/hooks/useMonthlyData.ts:46 | rows are ordered by room exactly when every earlier row's room id is at most every later row's |
| Store.Select | src/hooks/useMonthlyData.ts:42-46 | a month's query is ordered by room, and is empty exactly when no stored row belongs to the month |
| Store.SelectRows | src/hooks/useMonthlyData.ts:42-46 | the query returns each stored row of the month as often as it is stored, and nothing else |
| Store.StampKeepsIds | src/hooks/useMonthlyData.ts:106-110 | a batch insert with consecutive fresh ids keeps every id below the counter and every id unique |
| Store.Stamp | src/hooks/useMonthlyData.ts:106-110 | the inserted rows are the drafts in order, the i-th given the id firstId + i and otherwise unchanged |
| Store.ApplyUpdate | src/hooks/useMonthlyData.ts:132 | an update by id keeps the length and order, merges the patch into the rows with that id, and leaves every other row as it was |
| Store.UpdateRow | src/hooks/useMonthlyData.ts:132 | no contract of its own: one step of the `map`, merging the patch into a row with the id and leaving any other row; pinned down through ApplyUpdate's contract |
| Store.ApplyUpdateAbsent | src/hooks/useMonthlyData.ts:132 | an update of an id no row carries changes nothing |
| Store.ApplyUpdateOneRow | src/hooks/useMonthlyData.ts:135-138 | with unique ids an update touches at most one row |
| Store.ApplyUpdateSorted | src/hooks/useMonthlyData.ts:132 | an update that moves no row to another room keeps rows ordered by room |
| Store.SelectUpdate | src/hooks/useMonthlyData.ts:132-138 | updating the table then reading a month equals reading it then updating, when the patch keeps month and room |
| MonthlyData.SeedFromPrevious | src/hooks/useMonthlyData.ts:81-90 | one draft per row of last month, in order, with its room and occupants, the new month, last month's closing reading as the opening reading, 0 as the closing one, and nothing else set |
| MonthlyData.DefaultSeed | src/hooks/useMonthlyData.ts:91-101 | four drafts for rooms 1, 2, 3, 4 with zero occupants and zero readings |
| MonthlyData.SeedFor | src/hooks/useMonthlyData.ts:81-101 | the seed is never empty and every draft belongs to the month being seeded |
| MonthlyData.Fetch | src/hooks/useMonthlyData.ts:36-128 | a fetch only ever appends to the table, and a fetch where a remote call fails changes nothing |
| MonthlyData.SeededMonthReadsBack | src/hooks/useMonthlyData.ts:106-118 | once seeded rows are stored in an empty month, reading the month gives exactly those rows, ordered by room |
| MonthlyData.FetchShowsMonth | src/hooks/useMonthlyData.ts:54-58 | after a successful fetch the bills shown are the month's rows as now stored, and there is at least one |
| MonthlyData.FetchKeepsValid | src/hooks/useMonthlyData.ts:106-118 | a fetch keeps stored ids unique and below the counter |
| MonthlyData.FetchExistingMonth | src/hooks/useMonthlyData.ts:54-58 | a month with rows is shown as stored and nothing is inserted |
| MonthlyData.FetchTwiceSeedsOnce | src/hooks/useMonthlyData.ts:54-58 | after a successful fetch, fetching the same month again inserts nothing and, if its query succeeds, changes nothing |
| MonthlyData.FetchSeeds | src/hooks/useMonthlyData.ts:79-118 | an empty month fetched without failures gets its seed appended with fresh ids, and the inserted rows, ordered by room, are shown |
| MonthlyData.RolledRows | src/hooks/useMonthlyData.ts:84-90 | rolled-over rows: one per row of last month, same order, consecutive fresh ids, same room and occupants, opening reading = last closing reading, closing reading 0 |
| MonthlyData.RolledRowsSorted | src/hooks/useMonthlyData.ts:84-90 | rows rolled over from last month's ordered rows are already ordered by room |
| MonthlyData.FetchRollsOver | src/hooks/useMonthlyData.ts:81-90 | an empty month after a month with rows stores and shows exactly the rolled-over rows, one per row of last month |
| MonthlyData.DefaultRows | src/hooks/useMonthlyData.ts:94-100 | the default rows as stored are rooms 1 to 4 in order, with consecutive fresh ids, no occupants and zero readings |
| MonthlyData.DefaultRowsSorted | src/hooks/useMonthlyData.ts:94-100 | the default rows are already ordered by room |
| MonthlyData.FetchDefaultSeed | src/hooks/useMonthlyData.ts:91-118 | with no rows in the month or the month before, four default rows are stored and shown |
| MonthlyData.ClearedMonthSeedsDefaults | src/hooks/useMonthlyData.ts:63-118 | a cleared month picker selects "": its previous key is "NaN-NaN", and with no rows under either key the fetch stores four rows under the month key "" |
| MonthlyData.OptimisticUpdateMatchesStore | src/hooks/useMonthlyData.ts:132-138 | when the patch changes neither month nor room, the optimistically updated bills equal the month re-read after the same update is applied to the table |
| MonthlyData.MonthlyDataHook.constructor | src/hooks/useMonthlyData.ts:7-9 | the hook starts on "2025-12" with no bills and not loading |
| MonthlyData.MonthlyDataHook.FetchMonthData | src/hooks/useMonthlyData.ts:36-128 | the new state is the fetch of the month with its previous-month key, loading ends false, and ids stay unique and below the counter |
| MonthlyData.MonthlyDataHook.InsertRows | src/hooks/useMonthlyData.ts:106-118 | the drafts are appended with consecutive fresh ids, the counter moves past them, and the inserted rows ordered by room are shown |
| MonthlyData.MonthlyDataHook.SelectMonth | src/hooks/useMonthlyData.ts:146-148 | selecting a different month fetches it; selecting the month already selected changes nothing |
| MonthlyData.MonthlyDataHook.UpdateBill | src/hooks/useMonthlyData.ts:130-144 | the shown bills and the table both get the update by id; when the store fails, the state is the fetch of the selected month starting from the optimistically updated bills |
| Analytics.MonthWindow | src/hooks/useAnalytics.ts:27-33 | the loop produces the window: the keys of the months from three before the base month to two after, oldest first |
| Analytics.Window | src/hooks/useAnalytics.ts:27-33 | no contract of its own: the six keys from base − 3 to base + 2; MonthWindow proves the loop builds it, and WindowMonths, WindowDistinct and WindowCenter state what it holds |
| Analytics.WindowMonths | src/hooks/useAnalytics.ts:29-33 | each of the six keys reads back as a month, and they are consecutive months ending two after the base month |
| Analytics.WindowDistinct | src/hooks/useAnalytics.ts:29-33 | the six keys are different |
| Analytics.WindowCenter | src/hooks/useAnalytics.ts:29-33 | the fourth key is the base month's own key |
| Analytics.InMonths | src/hooks/useAnalytics.ts:35-39 | a row is fetched exactly when it is stored and its month is in the window |
| Analytics.FindIndex | src/hooks/useAnalytics.ts:48 | `find` stops at the first bill of the room: no bill before it is that room's, and the one there is |
| Analytics.FindRoomFound | src/hooks/useAnalytics.ts:48 | there is no bill for a room exactly when no bill of the month is that room's, and a bill found is that room's |
| Analytics.FindRoom | src/hooks/useAnalytics.ts:48 | no contract of its own: `monthBills.find(b => b.room_id === roomId)`; pinned down by FindRoomFound and FindIndex |
| Analytics.RoomStatFor | src/hooks/useAnalytics.ts:47-53 | no contract of its own: a room's usage and revenue for one month; RoomStatIsBill proves they are the calculator's usage and total for the room's first bill, or 0 and 0 |
| Analytics.SumRevenue | src/hooks/useAnalytics.ts:56 | no contract of its own: the `reduce` over the rooms' revenues; SumRevenueSnoc and MonthSummaryRooms state it |
| Analytics.RoomStatIsBill | src/hooks/useAnalytics.ts:48-53 | a room's usage and revenue are its first bill's electricity usage and total from the calculator; without a bill, both are 0 |
| Analytics.MonthSummaryRooms | src/hooks/useAnalytics.ts:44-63 | each month lists exactly rooms 1, 2, 3, 4 in order, and its total is the sum of their four revenues |
| Analytics.MonthSummary | src/hooks/useAnalytics.ts:44-63 | no contract of its own: one month of the overview; MonthSummaryRooms and MonthWithoutRows state its rooms and total |
| Analytics.Group | src/hooks/useAnalytics.ts:44-64 | no contract of its own: one summary per window month, in order; GroupIgnoresPrefilter states that the query's month filter does not change it |
| Analytics.Overview | src/hooks/useAnalytics.ts:27-64 | no contract of its own: what a successful fetch publishes; OverviewMonths states its six entries and their labels |
| Analytics.SumRevenueSnoc | src/hooks/useAnalytics.ts:56 | folding in one more room adds its revenue |
| Analytics.MonthWithoutRows | src/hooks/useAnalytics.ts:45-56 | a month without rows shows all four rooms with usage 0 and revenue 0, and total 0 |
| Analytics.RowsOfMonthInMonths | src/hooks/useAnalytics.ts:38-45 | restricting to the window's months first does not change the rows of a window month |
| Analytics.GroupIgnoresPrefilter | src/hooks/useAnalytics.ts:38-45 | the query's month filter does not change the overview |
| Analytics.WindowLabels | src/hooks/useAnalytics.ts:60 | every window month is labelled "T", its month without leading zero, "/", and its two-digit year |
| Analytics.OverviewMonths | src/hooks/useAnalytics.ts:44-64 | the overview has six entries, one per window month in order, each the summary of that month's stored rows under its label |
| Analytics.AnalyticsHook.constructor | src/hooks/useAnalytics.ts:18-19 | no data and not loading at first |
| Analytics.AnalyticsHook.FetchAnalytics | src/hooks/useAnalytics.ts:22-72 | a successful fetch publishes the overview of the base month; an invalid base date or a failed query keeps the old data; loading ends false |
| BoardingHouse.UpdateRooms | src/hooks/useBoardingHouse.ts:35-37 | length and order are kept, rooms with the id get the fields of the patch, and every other room is unchanged |
| BoardingHouse.UpdateRoomsIdempotent | src/hooks/useBoardingHouse.ts:35-37 | applying the same update twice is the same as once |
| BoardingHouse.UpdateRoomsAbsent | src/hooks/useBoardingHouse.ts:35-37 | updating an id no room has changes nothing |
| BoardingHouse.UpdateRoomsKeepsIds | src/hooks/useBoardingHouse.ts:35-37 | a patch without an id keeps every room's id in place |
| BoardingHouse.MergeRoom | src/hooks/useBoardingHouse.ts:36 | no contract of its own: defined field by field as the spread `{ ...r, ...data }`, a field the patch sets overriding the room's; UpdateRooms's contract is stated through it, and UpdateRoomsIdempotent states idempotence only, not the override itself |
| BoardingHouse.CalculateRoomBill | src/hooks/useBoardingHouse.ts:39-63 | the room calculator gives the same charges as the monthly calculator on the room's occupants and readings |
| BoardingHouse.CalculatorsAgree | src/hooks/useBoardingHouse.ts:39-63 | a room and a bill with the same occupants and readings get the same bill |
| BoardingHouse.InitialRooms | src/hooks/useBoardingHouse.ts:6-11 | the initial rooms `INITIAL_ROOMS` are rooms 1 to 4, named as in `ROOM_NAMES`, with no occupants and zero readings |
| BoardingHouse.InitialRoomsOweNothing | src/hooks/useBoardingHouse.ts:6-11 | every initial room's bill is all zeros |
| BoardingHouse.BoardingHouseHook.constructor | src/hooks/useBoardingHouse.ts:14 | the rooms start as the initial rooms |
| BoardingHouse.BoardingHouseHook.UpdateRoom | src/hooks/useBoardingHouse.ts:35-37 | the rooms become the update of the old rooms |

## Left out

- Network and asynchrony: the Supabase client, `await`, console logging and error objects. The table is an in-memory sequence with an id counter. Each remote call's failure is a boolean parameter.
- React machinery: `useState`, `useEffect` and `useCallback`, re-rendering, and the effect that refetches when the selected month changes. `SelectMonth` performs the effect's fetch directly, and only when the month changes, as React skips setting a state to the value it already holds.
- Races between overlapping fetches. The call in `updateBill` is not awaited. The model runs each fetch to completion before the next step.
- The `localStorage` load and save and the `mounted` flag of `src/hooks/useBoardingHouse.ts:15-33`. They are browser I/O.
- Making the analytics base date. This covers `new Date(centerMonth + '-01')`, the fallback to the current date, and the time-zone shift of a UTC-midnight date into local time. `FetchAnalytics` receives the base date's month, or None when the date is invalid.
- The `.order('month_key')` of the analytics query. Grouping re-filters each month, so only the order within a month matters. Within a month, the model keeps table order.
- `.order('room_id')` leaves rows of the same room in no fixed order. The model keeps their table order (a stable sort).
- Column defaults the database may fill in for inserted rows. These include `is_paid`, the rates and `notes`. The model stores the drafts as sent, with those fields absent.
- Number parsing: `Number`, `parseInt` and `new Date(year, month)` are modelled for keys whose two parts are runs of 1 to 4 ASCII digits. Other keys give "NaN-NaN" as the previous key. This leaves out other text the engine would read as a number, such as signs, spaces and exponents.
- Floating point: the per-person share is exact real division.
- Billing.Calculate: occupants and meter readings are modelled as integers. The program can hold fractional readings: the room editor stores `Number(...)` of a number input, and a fractional closing reading becomes next month's opening reading through the roll-over. Usage, costs, totals and analytics revenue can then be fractional in the program.
- Billing.PerPersonExact: its whole-number share holds only for whole-number readings, which is all the model admits.
- MonthKeys.PreviousMonthKeyOfKey: stated for years 1000 to 9999 only. For a key of a year from 0000 to 0999 the program's previous key is not a well-formed key, because `getFullYear()` is not padded ("0999-05" gives "999-04"). For years 0000 to 0099 the `Date` constructor's two-digit-year rule also moves the year into the 1900s ("0099-01" gives "1998-12"). `PreviousMonthKey` models both behaviours, and `PreviousMonthKeyUnpadded` and `PreviousMonthKeyTwoDigitYear` prove these two examples.
- Integer width: the charges are unbounded integers. JavaScript numbers lose precision above 2^53, far beyond any real bill.
- `Intl.NumberFormat` currency display, and all presentational components.
- `Room` is imported from `src/types/index.ts` but not declared there. Its shape is taken from `INITIAL_ROOMS` (`src/hooks/useBoardingHouse.ts:6-11`).
- MonthlyData.MonthlyDataHook.UpdateBill: the stored ids are guaranteed to stay unique only when the patch sets no id. The model does not decide whether the store refuses a duplicate id; it lets the update through. After such a patch the model no longer promises `Valid()`, so `FetchMonthData`, `SelectMonth` and `UpdateBill` cannot be called on it, while the program could call them. No caller in the program sends an id: the room editor sends only occupants and readings.
- MonthlyData.Fetch: the fetch lemmas are stated for any previous-month key. The hook passes `PreviousMonthKey(month)`, whose properties are proved in `MonthKeys`.
