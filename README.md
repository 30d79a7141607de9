# Transfer table decision layer

A Dafny model of the decision logic of the payments dashboard's transfer table
(`src/components/payouts/components/TransferTable.tsx`). The component is a view,
but what it decides is deterministic. It covers:

- **Column configuration** (`ColumnConfig`). The table's column state is a list of
  descriptors `{key, label, visible, order}`. The model names the `label` field
  `title`, and a transfer's `type` and `method` fields `transferType` and
  `transferMethod`, because `label`, `type` and `method` are Dafny keywords. It starts as a fixed set of eight and is
  replaced as a whole when the settings panel reports a change. `ColumnStore` is a
  small class whose `columns` field is that state.
- **Column selection** (`ColumnConfig`). The columns on screen are the visible
  descriptors, sorted by `order` with a stable sort. The model uses a filter followed
  by a stable insertion sort. It proves that the result is sorted, holds exactly the
  visible descriptors, and keeps the input order of ties. It also proves that these
  three properties determine the result uniquely.
- **Cells and rows** (`TableRender`). Each column key picks a cell kind. An unknown
  key gives an empty cell. The header and every body row follow the same displayed
  columns and end with the fixed Actions column. Status and type badges map to a
  colour enum, with grey for any unknown value. The amount cell takes the crypto path
  exactly when the upper-cased code is one of eight codes. Otherwise it uses the
  platform's currency formatter, and when that formatter rejects the code it falls
  back to the crypto form.
- **Pagination and page size** (`Paging`). There is no strip when there is at most
  one page. Otherwise it shows links 1..min(5, totalPages), whatever the current page.
  The current page's link is highlighted. Previous asks for the page before only when the
  current page is above 1, and next asks for the page after only when it is below
  totalPages. Neither checks the other bound, so a current page outside the range is
  passed on unclamped. The page-size selector offers "10", "20" and "50"
  and reports the number parsed from the chosen text. The current size is shown as
  its decimal text.

The number formatting (`toLocaleString` with two fraction digits, and
`Intl.NumberFormat` in currency style) comes from the platform and is not visible.
So it is a parameter: `NumberFormat` holds the two functions. The currency function
returns `None` where the platform throws. The model states the branch choice and the
`number + " " + code` shape, and leaves the digits to the parameter.

Each callback the component fires is modelled by the value it would be handed:

- `onViewDetails`: the `details` record in `IdLink` and `Actions` cells.
- `onPageChange`: a link's `page`, or a step's `target`.
- `onPageSizeChange`: the result of `ParseInt`.
- `onColumnsChange`: a call of `ColumnStore.Replace`.

Two behaviours of the code are worth noting:

- The crypto test upper-cases the currency first, so "btc" also takes the crypto path.
- Outside [1, totalPages], "disabled" and "does nothing" come apart. For example, on
  page 0 the previous control is not drawn disabled, yet clicking it does nothing.
  `DisabledIffInert` proves that the two agree inside the range.

## Model

| member | source | states |
|---|---|---|
| `ColumnConfig.DefaultColumns` | src/components/payouts/components/TransferTable.tsx:119-128 | the initial set has exactly 8 descriptors, with keys id, beneficiaryName, amount, currency, type, status, method and fee in that order; all are visible, order equals position 0..7, and keys are distinct |
| `ColumnConfig.ColumnStore.constructor` | src/components/payouts/components/TransferTable.tsx:119-128 | the column state starts as the default set |
| `ColumnConfig.ColumnStore.Replace` | src/components/payouts/components/TransferTable.tsx:130-132 | afterwards the state is exactly the argument, with no merge or validation, whatever it holds |
| `ColumnConfig.Visible` | src/components/payouts/components/TransferTable.tsx:161 | the filter keeps only visible descriptors, and each visible descriptor appears exactly as often as in the input (a multiset statement) |
| `ColumnConfig.VisibleAppend` | src/components/payouts/components/TransferTable.tsx:161 | the filter keeps the input order: filtering a concatenation is the concatenation of the filtered parts |
| `ColumnConfig.WithOrderVisible` | src/components/payouts/components/TransferTable.tsx:161 | filtering commutes with picking out one rank: the visible descriptors of rank k, in input order |
| `ColumnConfig.InsertByOrder` | src/components/payouts/components/TransferTable.tsx:161 | inserting into a sorted sequence keeps it sorted and adds exactly the one descriptor |
| `ColumnConfig.SortByOrder` | src/components/payouts/components/TransferTable.tsx:161 | the sort by `a.order - b.order` gives a non-decreasing sequence that is a permutation of its input |
| `ColumnConfig.InsertKeepsTies` | src/components/payouts/components/TransferTable.tsx:161 | insertion puts the new descriptor ahead of every descriptor of equal rank and leaves each rank's order otherwise unchanged |
| `ColumnConfig.SortIsStable` | src/components/payouts/components/TransferTable.tsx:161 | the sort is stable: for every rank, the descriptors of that rank keep their input order |
| `ColumnConfig.SortedAgreeingEqual` | src/components/payouts/components/TransferTable.tsx:161 | two sorted sequences holding the same descriptors, in the same order within each rank, are equal |
| `ColumnConfig.StableSortCharacterised` | src/components/payouts/components/TransferTable.tsx:161 | a sequence is the sort's result if and only if it is sorted by rank and keeps every rank's input order (both directions) |
| `ColumnConfig.DisplayColumns` | src/components/payouts/components/TransferTable.tsx:161 | the displayed columns are sorted by rank, hold each visible descriptor as often as the input does and nothing else, and are as many as the visible descriptors |
| `ColumnConfig.DisplayColumnsSpec` | src/components/payouts/components/TransferTable.tsx:161-170 | the displayed columns are sorted by rank, are exactly the visible descriptors with their multiplicities, and for every rank k the displayed descriptors of rank k are the visible descriptors of rank k in the order of the input list |
| `ColumnConfig.VisibleOfAllVisible` | src/components/payouts/components/TransferTable.tsx:161 | when every descriptor is visible, the filter returns the list unchanged |
| `ColumnConfig.SortOfSorted` | src/components/payouts/components/TransferTable.tsx:161 | sorting an already sorted list leaves it unchanged |
| `ColumnConfig.DefaultDisplay` | src/components/payouts/components/TransferTable.tsx:119-128 | with the default set, all eight columns are displayed in declaration order |
| `TableRender.StatusColour` | src/components/payouts/components/TransferTable.tsx:68-76 | completed→green, processing→blue, pending→yellow, failed→red, each as an if-and-only-if; grey exactly for any other status; total |
| `TableRender.TypeColour` | src/components/payouts/components/TransferTable.tsx:78-85 | PAYIN→green, PAYOUT→red, Invoice→blue, each as an if-and-only-if and case-sensitive; grey exactly for any other type; never yellow; total |
| `TableRender.ToUpper` | src/components/payouts/components/TransferTable.tsx:48 | upper-casing keeps the length, leaves no lower-case ASCII letter, and changes only lower-case letters, each to its capital |
| `TableRender.IsCrypto` | src/components/payouts/components/TransferTable.tsx:47-48 | a currency takes the crypto path if and only if it matches one of the eight codes letter by letter after upper-casing; such a currency has 3 to 5 characters |
| `TableRender.FormatAmount` | src/components/payouts/components/TransferTable.tsx:45-66 | the plain form is used if and only if the code is crypto or the currency formatter fails; the plain form is the two-decimal number and the currency as stored, not upper-cased; otherwise the result is the formatter's text |
| `TableRender.CryptoIgnoresCase` | src/components/payouts/components/TransferTable.tsx:46-48 | the crypto test does not depend on letter case: "btc" and "Btc" qualify, "USD" does not |
| `TableRender.CryptoIgnoresLocale` | src/components/payouts/components/TransferTable.tsx:46-53 | for a crypto code the result does not depend on the currency formatter and reads `number + " " + code` |
| `TableRender.FallbackMatchesCrypto` | src/components/payouts/components/TransferTable.tsx:55-65 | when the currency formatter fails, the text is the two-decimal number, one space and the original code, as on the crypto path; it ends in `" " + code` |
| `TableRender.RenderCell` | src/components/payouts/components/TransferTable.tsx:87-117 | the cell is empty if and only if the key is not one of the eight known keys; otherwise it is the cell for that key's field; an id link carries the whole record; the beneficiary cell shows the name and the beneficiary id; the currency cell shows the code, the method badge the method and the fee cell the fee, all as stored; badges carry the mapped colours; the amount cell carries the formatted amount |
| `TableRender.HeaderRow` | src/components/payouts/components/TransferTable.tsx:159-165 | the header has one heading per visible descriptor plus one, and its last cell is Actions |
| `TableRender.BodyRow` | src/components/payouts/components/TransferTable.tsx:168-178 | a row has one cell per visible descriptor plus one, and its last cell is the Actions button for that row's record, which no other cell is |
| `TableRender.BodyRows` | src/components/payouts/components/TransferTable.tsx:167-180 | there is one row per transfer, in page order, and each row ends with that transfer's Actions cell |
| `TableRender.RowsFollowHeader` | src/components/payouts/components/TransferTable.tsx:159-178 | the header and every row use the identical column sequence: heading i and cell i of every row come from the same displayed descriptor |
| `TableRender.KnownKeysNoBlank` | src/components/payouts/components/TransferTable.tsx:170-171 | when every key is known, no cell is empty and each cell shows the field of its column's key |
| `TableRender.DefaultRowComplete` | src/components/payouts/components/TransferTable.tsx:119-128 | with the default descriptor shape, a row has 9 cells, and cells 0..7 show id, beneficiaryName, amount, currency, type, status, method and fee, none empty |
| `Paging.Previous` | src/components/payouts/components/TransferTable.tsx:188-195 | previous is drawn disabled exactly on page 1, and a click asks for page current - 1 if and only if the current page is above 1 |
| `Paging.Next` | src/components/payouts/components/TransferTable.tsx:217-224 | next is drawn disabled exactly on page totalPages, and a click asks for page current + 1 if and only if the current page is below totalPages |
| `Paging.Links` | src/components/payouts/components/TransferTable.tsx:198-214 | the links are pages 1..min(5, totalPages), and a link is active exactly when its page is the current page |
| `Paging.Pagination` | src/components/payouts/components/TransferTable.tsx:183-229 | there is no strip if and only if totalPages <= 1; otherwise there are 2..5 links, link i is page i + 1 and is active exactly when that page is current; previous is disabled exactly on page 1 and asks for current - 1 if and only if current > 1; next is disabled exactly on page totalPages and asks for current + 1 if and only if current < totalPages |
| `Paging.RequestsWithinRange` | src/components/payouts/components/TransferTable.tsx:188-225 | when 1 <= currentPage <= totalPages, every page any control asks for lies within [1, totalPages] |
| `Paging.AtMostOneActive` | src/components/payouts/components/TransferTable.tsx:198-208 | at most one link is active, and one is active if and only if 1 <= currentPage <= min(5, totalPages) |
| `Paging.NoSlidingWindow` | src/components/payouts/components/TransferTable.tsx:198 | the linked pages do not depend on the current page, and never exceed 5 when there are more pages |
| `Paging.DisabledIffInert` | src/components/payouts/components/TransferTable.tsx:188-224 | inside the page range, previous and next are drawn disabled exactly when clicking them asks for nothing |
| `Paging.NextReaches` | src/components/payouts/components/TransferTable.tsx:219-223 | assuming the parent sets the current page to each requested page, n clicks on next from a page in range reach min(current + n, totalPages), so pages past the links are reachable |
| `Paging.PreviousReaches` | src/components/payouts/components/TransferTable.tsx:190-194 | assuming the parent sets the current page to each requested page, n clicks on previous from page >= 1 reach max(current - n, 1) |
| `Paging.ToDecimal` | src/components/payouts/components/TransferTable.tsx:143 | the page size shown as text is a non-empty string of decimal digits with no leading zero, and it is "0" exactly for zero |
| `Paging.ParseInt` | src/components/payouts/components/TransferTable.tsx:143 | parsing gives no number if and only if no digit follows the optional sign; a negative result needs a leading minus; text starting with a digit gives a non-negative number |
| `Paging.LeadingDigits` | src/components/payouts/components/TransferTable.tsx:143 | integer parsing reads the longest prefix of digits: a digit-only prefix that the next character does not extend |
| `Paging.DigitsValueOfDecimal` | src/components/payouts/components/TransferTable.tsx:143 | the digits of a number's decimal text evaluate back to the number |
| `Paging.ParseDecimalRoundTrip` | src/components/payouts/components/TransferTable.tsx:143 | parsing the decimal text of n gives n |
| `Paging.PageSizeChoices` | src/components/payouts/components/TransferTable.tsx:143-151 | the three choices "10", "20" and "50" report 10, 20 and 50, and the shown text of a page size parses back to that size |

## Left out

- The digits of `toLocaleString` and `Intl.NumberFormat` are left to the `NumberFormat` parameter. They render floating-point amounts through a locale library that is not visible. The model keeps only the branch choice and the `number + " " + code` shape.
- `TableRender.ToUpper` upper-cases only ASCII letters. The platform's upper-casing is full Unicode (for example, U+017F turns into "S"). Non-ASCII currency codes are not modelled.
- `Paging.ParseInt` reads an optional sign and the leading digits. It does not skip leading whitespace or recognise a "0x" prefix, as the platform's `parseInt` does. None of this matters for the three offered values.
- `Paging.ToDecimal` covers only non-negative integers. Page sizes that are fractional or negative are not modelled.
- A descriptor's `order` is a JavaScript number but is modelled as an `int`. Fractional, NaN or infinite ranks are not modelled; for integer ranks `a.order - b.order` compares as integer order does.
- Amounts and fees are `real`. Page numbers are `int`. Floating-point behaviour and non-integer page counts (which `Array.from` would truncate) are not modelled.
- Markup, CSS classes and the widget library (card, table, badge, select, pagination) are reduced to the data each cell shows. Badge colours are an enum. The fee cell keeps the raw number, which is drawn after a "$".
- The card title "Transfer History (N total, showing M)" (line 139) is presentation text and is not modelled.
- The settings panel (`TransactionSettings`) is not part of this model. Its only effect here is to call `ColumnStore.Replace`.
- The parent's data fetching, navigation and the effects of `onPageChange`, `onPageSizeChange` and `onViewDetails` belong to the caller. The model records only the argument each one would receive.
- React re-rendering and row/column `key` props are not modelled. This includes the warnings React gives for duplicate keys.
- `src/App.tsx` (route and provider wiring) and `src/components/layout/supportCenter.tsx` (a presentational widget) are not part of this model.
- The 1..5 page links are modelled as written. The model does not use a window that follows the current page.
