# AgriFlow bookkeeping records and navigation helpers, in Dafny

AgriFlow is a browser dashboard for two agribusiness companies: Company 1 trades
fertilizer and seeds, and Company 2 trades maize. Almost all of it is UI. This
project models the parts that hold logic:

- **Records** (`records.dfy`). This is `src/lib/data.ts`. It holds the bill item,
  transaction, bill, customer, farmer, organization and stock-item records, with
  their enumerations as datatypes. It also holds the seed collections the screens
  start from. `Total` is the bookkeeping rule Σ quantity × price. Lemmas prove the
  rules the seed data keeps:
  - every total matches its items, and every item list is non-empty and positive;
  - ids are unique within each collection;
  - every counterparty name is the `name` of a party of the stated kind;
  - every transaction mirrors a bill, and is a Sale exactly when that bill is Receivable;
  - stock is scoped by company.
- **Page header** (`page_header.dfy`, with `strings.dfy`). The breadcrumb title:
  - the pathname is split on `/` and the empty pieces are dropped;
  - the last segment is the title, or "Dashboard" when there is no segment;
  - the title is formatted word by word on `-`.
  `strings.dfy` models JavaScript's `split` on one character, `join` and
  `filter(Boolean)`, and proves the split/join round trips in both directions.
  `Scan` is an independent one-pass definition of the formatting. The formatting
  is proved equal to it, and then proved length-preserving, pointwise
  characterised, hyphen-free and idempotent.
- **Data table** (`data_table.dfy`). The CSV export file name is `tableName`
  lower-cased, with each whitespace run replaced by `_`, then `_export`.
  `RunScan` is an independent one-character-at-a-time definition of the run
  replacement. The table also has a header row and a body: one row of cells per
  record, or a single "No results." cell spanning every column.
- **Sidebar** (`app_sidebar.dfy`). The constant menu, and the rule that an item
  is active when the pathname starts with its `href`. No href is a prefix of
  another, so at most one item is ever active.

`ascii.dfy` holds the character classes and case mappings. The JavaScript
string functions are modelled over ASCII.

## Model

| member | source | states |
|---|---|---|
| Records.TotalAppend | src/lib/data.ts:132-142 | the total of two item lists laid end to end is the sum of their totals |
| Records.TotalPositive | src/lib/data.ts:2-8 | items with positive quantity and price have a total that is non-negative, positive when there is an item, and at least each line's quantity × price |
| Records.SameLinesSameTotal | src/lib/data.ts:2-8 | items that agree on product, quantity, unit and price have the same total, whatever their ids |
| Records.MirrorKeepsTotals | src/lib/data.ts:10-19 | a transaction that mirrors a well-formed bill is well formed, and is a Sale exactly when the bill is Receivable |
| Records.Lines | src/lib/data.ts:2-8 | an item's line is all of its fields except the id, one line per item and in order |
| Records.SeedTotals | src/lib/data.ts:21-150 | every seed transaction and bill has at least one item, positive quantities and prices, and totalAmount = Σ quantity × price; TRN004 gives 10×50 + 5×25 = 625 and INV-2024002 gives 75×200 = 15000 |
| Records.SeedIdsDistinct | src/lib/data.ts:21-150 | ids are pairwise distinct in the transactions, customers, farmers, organizations, stock and bills |
| Records.SeedCounterpartiesExist | src/lib/data.ts:21-150 | every seed transaction's and bill's counterparty string equals the name of a party of its stated counterpartyType |
| Records.SeedTransactionsMirrorBills | src/lib/data.ts:21-150 | every seed transaction has a seed bill with the same counterparty, party kind, company, lines and total, and type Sale exactly when billType is Receivable |
| Records.SeedMirrorIgnoresItemIds | src/lib/data.ts:148 | TRN002 and its bill BILL-002 agree line by line, but their item ids differ (STK003 against FARM001) |
| Records.SeedStockScoped | src/lib/data.ts:123-130 | Company 1 stock is fertilizer or seeds, Company 2 stock is maize, and no quantity is negative |
| Strings.SplitPiecesFree | src/components/page-header.tsx:9 | no piece of `split(c)` contains `c` |
| Strings.JoinSplit | src/components/page-header.tsx:9 | joining the pieces of `split(c)` with `c` gives back the input |
| Strings.SplitJoin | src/components/page-header.tsx:9 | splitting a join of at least one separator-free piece gives back the pieces |
| Strings.SplitAround | src/components/page-header.tsx:9 | one separator between two strings is one piece boundary |
| Strings.ConcatNonEmpty | src/components/page-header.tsx:9 | `filter(Boolean)` drops only empty pieces: the characters laid end to end are unchanged |
| PageHeader.Segments | src/components/page-header.tsx:9 | every segment is non-empty and contains no `/` |
| PageHeader.Title | src/components/page-header.tsx:10 | the title is never empty and contains no `/` |
| PageHeader.SegmentsKeepCharacters | src/components/page-header.tsx:9 | the segments laid end to end are the pathname without its slashes |
| PageHeader.NoSegmentsIff | src/components/page-header.tsx:9-25 | there is no segment exactly when the pathname is all slashes (as "" and "/" are), exactly when the title is "Dashboard" and no chevron shows |
| PageHeader.ChevronIff | src/components/page-header.tsx:25 | the chevron shows exactly when the pathname has a character other than `/` |
| PageHeader.SegmentsOfPath | src/components/page-header.tsx:9 | a path joined from non-empty slash-free segments, with or without a leading `/`, gives those segments back |
| PageHeader.TrailingSlash | src/components/page-header.tsx:9-10 | a trailing `/` changes neither the segments nor the title |
| PageHeader.TitleAfterSlash | src/components/page-header.tsx:10 | a non-empty slash-free word after the last `/` is appended as the last segment and is the title |
| PageHeader.TitleOfWord | src/components/page-header.tsx:10 | a non-empty slash-free pathname is its own title |
| PageHeader.FormatSegmentIsScan | src/components/page-header.tsx:12-17 | split on `-`, capitalize, join with a space equals the one-pass `Scan` from a word start |
| PageHeader.FormatSegmentPointwise | src/components/page-header.tsx:12-17 | the formatted segment has the input's length; each `-` becomes exactly one space; a word's first character is upper-cased; every other character is copied, so empty words from `--` or a leading `-` stay empty |
| PageHeader.FormatSegmentHyphenFree | src/components/page-header.tsx:13-16 | the formatted segment contains no `-` |
| PageHeader.FormatSegmentIdempotent | src/components/page-header.tsx:12-17 | formatting a formatted title returns it unchanged |
| PageHeader.RenderRoot | src/components/page-header.tsx:9-26 | an all-slash pathname renders "Dashboard" without a chevron |
| DataTable.CollapseWhitespace | src/components/data-table.tsx:31 | the replacement is no longer than its input, contains no whitespace, and holds only `_` and characters of the input |
| DataTable.ExportFileName | src/components/data-table.tsx:31 | the file name ends in `_export` and contains no whitespace and no upper-case letter |
| DataTable.CollapseIsRunScan | src/components/data-table.tsx:31 | replacing whitespace runs from the left equals the one-character scan that writes `_` at the start of a run and nothing inside it |
| DataTable.CollapseRun | src/components/data-table.tsx:31 | each maximal whitespace run between two parts becomes exactly one `_` between their replacements |
| DataTable.CollapseNoWhitespace | src/components/data-table.tsx:31 | text without whitespace is unchanged |
| DataTable.CollapseIdempotent | src/components/data-table.tsx:31 | replacing twice is replacing once |
| DataTable.CollapseKeepsVisible | src/components/data-table.tsx:31 | the characters that are neither whitespace nor `_` are kept, in order, and nothing else is added |
| DataTable.ExportFileNameContents | src/components/data-table.tsx:31 | before the suffix, the non-whitespace non-`_` characters of the name are those of `tableName`, in order and lower-cased |
| DataTable.ExportFileNameEdges | src/components/data-table.tsx:31 | an empty `tableName` gives "_export"; leading or trailing whitespace gives a leading `_` or a `_` before the suffix, not a trim |
| DataTable.ExportFileNameOfWords | src/components/data-table.tsx:31 | words separated by single spaces come out joined with `_` |
| DataTable.HeaderCells | src/components/data-table.tsx:41-43 | one header cell per column, in column order, showing `column.header` |
| DataTable.RowCells | src/components/data-table.tsx:50-54 | one cell per column, in column order, holding the record's field for `accessorKey` ("undefined" when missing), spanning one column |
| DataTable.DataRows | src/components/data-table.tsx:48-56 | one row per record, in data order |
| DataTable.BodyRows | src/components/data-table.tsx:47-65 | with data the body is the data rows; without data it is a single "No results." cell spanning `columns.length` columns |
| DataTable.RowCellsWidth | src/components/data-table.tsx:50-54 | a data row spans exactly as many columns as there are columns |
| DataTable.BodyMatchesHeader | src/components/data-table.tsx:41-65 | the body has at least one row, and every body row spans exactly as many columns as the header has cells |
| DataTable.DataRowsAppend | src/components/data-table.tsx:48-56 | rendering two record lists one after the other gives their rows one after the other |
| AppSidebar.Render | src/components/app-sidebar.tsx:58-74 | one entry per menu item, in menu order, active exactly when the pathname starts with the item's href |
| AppSidebar.MenuHrefsWellFormed | src/components/app-sidebar.tsx:32-42 | the hrefs are pairwise distinct, each starts with `/` and is longer than `/`, and none is a prefix of another |
| AppSidebar.PrefixesComparable | src/components/app-sidebar.tsx:46 | of two prefixes of one pathname, the shorter is a prefix of the longer |
| AppSidebar.AtMostOneActive | src/components/app-sidebar.tsx:46 | for a prefix-free menu, two active items are the same item |
| AppSidebar.SidebarAtMostOneActive | src/components/app-sidebar.tsx:32-66 | for any pathname at most one entry of the sidebar's menu is active |
| AppSidebar.ActiveExamples | src/components/app-sidebar.tsx:32-46 | "/" activates no item; matching is by raw prefix, so "/stock-levels" activates Stock Management and "/dashboard/x" activates Dashboard |

## Left out

- Case mapping and whitespace cover ASCII only. `toUpperCase` and `toLowerCase` change only `a`-`z` and `A`-`Z`. `\s` covers space, tab, line feed, vertical tab, form feed and carriage return. Unicode case mapping may change a string's length and Unicode spaces also match `\s`; neither is modelled.
- PageHeader.FormatSegmentPointwise: the length and pointwise claims are stated for the ASCII case mapping above. With full Unicode case mapping, a first character such as `ß` would upper-case to two characters.
- JavaScript numbers: every seed quantity, price and amount is a whole number, so they are `int`. Floating-point rounding is not modelled.
- Table cells hold each field already converted by `String(...)`. The conversion of arbitrary values is not modelled; only the "undefined" of a missing field is.
- Rendering: JSX, icons, CSS classes (including the header's `capitalize` class), tooltips, links, avatars and the `SidebarTrigger`. `usePathname` is replaced by a pathname parameter.
- The CSV writer `exportToCsv` and the file download are not part of this model. Only the file name built for it is modelled.
- The bill composer, the finalize step, status changes, the ledger filter and local-storage persistence live in screens outside these files. Only the record types, `Total` and the rules the seed data keeps are modelled.
- The AI inventory forecaster is a call to an external language model and is not part of this model.
- Dates are kept as the strings the seed data uses. They are not parsed or validated.
