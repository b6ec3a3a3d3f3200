# FintrackFront: list views, validators and access rules in Dafny

FintrackFront is the Angular front end of a small bookkeeping system. Owners,
managers, staff and auditors keep incomes, expenses and a daily balance
there. This project models the client-side rules that the app's behaviour
rests on:

- **Filter query suffixes.** Every list view turns its filter record into a
  `&key=value&…` suffix for the list endpoint. The newer views drop empty
  fields and keep a fixed key order. The legacy views always write every key
  and never encode the values. The suffixes are built as sequences of
  parameters. A parser reads them back, and the lemmas show what the server
  receives.
- **Paging.** This covers the five-page sliding window, the dense page
  lists, the range check in `goToPage`, and the two ways the views set
  `needPagination`.
- **List state transitions.** `applyFilter`, `clearFilters`, `sortData`,
  `goToPage` and the response handlers are pure functions. Each returns the
  new view state together with the request it fires (`ListView.Step`).
- **The auditor's status logic.** This covers the client-side filter on
  the `checked` code, the codes a verdict sends, the label and class tables,
  and the row highlight while a dialog is open.
- **Form validators.** This covers the expense, income, daily-balance and
  user dialogs, and the delete password.
- **Access and the session.** This covers the four route guards, the
  administrator route table and the role-dependent sidebar menus. It also
  covers local storage as `login`, `logout`, `setUserDetails` and the HTTP
  interceptor change it.

Modules follow the source files. `Query`, `ListView`, `Pagination`,
`Amounts`, `Auditing` and `FilterLink` hold what several views share. Other
code that the views call is passed in as function parameters:
`encodeURIComponent`, the date pipe, `toISOString` and `jwtDecode`.
JavaScript's truthiness and `||` defaults are written out explicitly:
- `Amounts.Num` is `Number(…)`, which can be NaN.
- `ListView.NumberOr` is `x || fallback`.
- `Auth.Stored` is what `setItem` makes of `undefined`.

Role codes are strings throughout, because the guards compare the stored
`roleId` with `===` against string literals. The administrator routes are
mounted under `/uzm/` by the application's top-level routes. Those routes
are not part of this model, so sidebar links to that section are written
`Admin(child)`.

## Model

| member | source | states |
|---|---|---|
| Query.BuildLink | src/app/administrator/auditor/all-incomes/all-incomes.component.ts:146-172 | The link is "" exactly when every field is empty; otherwise it starts with "&". |
| Query.Present | src/app/administrator/auditor/all-incomes/all-incomes.component.ts:149-169 | Only fields with a non-empty value are pushed; nothing is pushed iff all are empty. |
| Query.PresentOrdered | src/app/administrator/auditor/all-incomes/all-incomes.component.ts:149-169 | The keys pushed keep the builder's fixed key order. |
| Query.PresentLookup | src/app/administrator/auditor/all-incomes/all-incomes.component.ts:149-169 | Each key carries its field's sent text exactly when the field is non-empty. |
| Query.LinkDecodes | src/app/administrator/auditor/all-incomes/all-incomes.component.ts:146-172 | Parsing the link recovers the keys in order, and each key's value is its sent text (none for an empty field). |
| Query.ParseRender | src/app/administrator/auditor/all-incomes/all-incomes.component.ts:171 | "&" + params.join("&") parses back to the parameters when no value contains "&" and no key contains "=". |
| Query.RenderIsPrefixed | src/app/administrator/incomes/incomes.component.ts:154-164 | The legacy pair-by-pair concatenation produces the same text as the joined form. |
| Query.ParsePrefixed | src/app/administrator/balance-control/balance-control.component.ts:130-138 | A legacy always-all-keys link parses back to exactly its parameters. |
| FilterLink.LinkFields | src/app/administrator/auditor/all-incomes/all-incomes.component.ts:149-169 | The seven fields come in the order category_id, comment, staff_id, startDate, endDate, sort, order. |
| FilterLink.BuildFilterLink | src/app/administrator/auditor/all-incomes/all-incomes.component.ts:146-172 | The link is "" iff all seven fields are empty, and otherwise starts with "&". |
| FilterLink.FilterLinkDecodes | src/app/administrator/auditor/suspicious-incomes/suspicious-incomes.component.ts:225-251 | The server reads the keys in the fixed order. Each key maps to its field's text (the comment after encoding) iff the field is set. |
| FilterLink.OnlySortSent | src/app/administrator/auditor/all-incomes/all-incomes.component.ts:149-169 | With the five filters empty, the link holds the sort and order and nothing else. |
| FilterLink.SetFilter | src/app/administrator/auditor/all-incomes/all-incomes.component.ts:177-201 | Only the field named by filterType changes; dates go through the formatter, an empty picker gives ""; an unknown type changes nothing. |
| FilterLink.SetFilterIdempotent | src/app/administrator/auditor/all-incomes/all-incomes.component.ts:177-201 | Applying the same filter value twice is the same as applying it once. |
| FilterLink.HasActiveFilters | src/app/administrator/auditor/all-incomes/all-incomes.component.ts:224-232 | A filter counts as active iff the link built without the sort pair is non-empty. |
| FilterLink.SetSort | src/app/administrator/auditor/all-incomes/all-incomes.component.ts:244-254 | A cleared header sort restores the fallback pair, otherwise both column and direction are stored; the active-filter test is unaffected. |
| Pagination.Window | src/app/administrator/auditor/all-incomes/all-incomes.component.ts:272-288 | The window has min(5, totalPages) consecutive pages, all in [0, totalPages), and contains the current page when that is in range. |
| Pagination.Dense | src/app/administrator/expenses/expenses.component.ts:234-236 | Page i of the list is i, for every page. |
| Pagination.SetupPagination | src/app/administrator/auditor/new-incomes/new-incomes.component.ts:139-149 | needPagination iff totalPages > 1. In that case there is one button per page; otherwise the old button list stays. |
| Pagination.LegacyUpdate | src/app/administrator/incomes/incomes.component.ts:110-115 | The flag rises iff more than one page is reported and is never lowered; the button array grows to exactly the larger of its old length and the page count, and never shrinks. |
| Pagination.StaleButtonsStay | src/app/administrator/incomes/incomes.component.ts:110-115 | A shorter load after a longer one leaves the longer load's buttons in place. |
| Pagination.LegacyNeedOverLoads | src/app/administrator/balance-control/balance-control.component.ts:116-121 | Over any run of loads the flag ends true iff it started true or some load reported more than one page. |
| ListView.NumberOr | src/app/administrator/auditor/all-incomes/all-incomes.component.ts:127-131 | `x \|\| fallback`: a non-zero number is kept, an absent or zero one gives the fallback. |
| ListView.ExportSource | src/app/administrator/expenses/expenses.component.ts:661-669 | Export uses the filtered rows if there are any, else the page. It is refused iff both are empty. |
| ListView.DeletePromptFor | src/app/administrator/incomes/incomes.component.ts:411-436 | The confirmation opens iff the entered password is "2"; otherwise the wrong-password error. |
| Amounts.TotalAmount | src/app/administrator/expenses/expenses.component.ts:742-747 | The loop's sum equals the left-to-right column total with non-numbers as 0. |
| Amounts.TotalIsSumOfNumbers | src/app/administrator/user-expenses/user-expenses.component.ts:394-399 | The column total is the plain sum of the column's numeric entries. |
| Amounts.ColumnSumAppend | src/app/administrator/expenses/expenses.component.ts:742-747 | The total of two row lists put together is the sum of their totals. |
| Amounts.TotalNonNegative | src/app/administrator/expenses/expenses.component.ts:742-747 | Non-negative entries give a non-negative total. |
| Auditing.StatusOf | src/app/administrator/auditor/all-incomes/all-incomes.component.ts:397-411 | Exactly the four status names are recognised, and each is read back as its status. |
| Auditing.KeepChecked | src/app/administrator/auditor/new-incomes/new-incomes.component.ts:118 | Every kept row has the requested code. |
| Auditing.KeepCheckedOrdered | src/app/administrator/auditor/new-incomes/new-incomes.component.ts:118 | The kept rows are a subsequence of the response, so the server's order is kept. |
| Auditing.KeepCheckedCounts | src/app/administrator/auditor/suspicious-incomes/suspicious-incomes.component.ts:92 | Rows with the code are kept as often as the response holds them, and no other rows are kept. |
| Auditing.StatusLabel | src/app/administrator/auditor/all-incomes/all-incomes.component.ts:423-437 | The label is "—" exactly for values that are not a status. |
| Auditing.StatusClass | src/app/administrator/auditor/all-incomes/all-incomes.component.ts:397-411 | The class is "" exactly for values that are not a status. |
| Auditing.LabelsAndClassesDistinct | src/app/administrator/auditor/all-incomes/all-incomes.component.ts:397-437 | Different statuses never share a label or a class. |
| Auditing.VerdictCode | src/app/administrator/auditor/suspicious-incomes/suspicious-incomes.component.ts:399 | A verdict sends its status's code, never the unchecked code 1. |
| Auditing.Resolve | src/app/administrator/auditor/new-incomes/new-incomes.component.ts:506-568 | The row is highlighted while the dialog is open and cleared on every outcome. A request goes out iff the dialog is confirmed, and only a saved verdict reloads. |
| AllIncomes.ApplyFilter | src/app/administrator/auditor/all-incomes/all-incomes.component.ts:177-202 | One filter changes, the page resets to 0, and the filtered endpoint is called with the new link. |
| AllIncomes.ClearedLink | src/app/administrator/auditor/all-incomes/all-incomes.component.ts:207-219 | After clearing, the link is the rendering of sort=id, order=desc alone. |
| AllIncomes.ClearFilters | src/app/administrator/auditor/all-incomes/all-incomes.component.ts:207-219 | The filters return to the defaults, no filter is active, and the first page is requested with the default sort. |
| AllIncomes.SortData | src/app/administrator/auditor/all-incomes/all-incomes.component.ts:244-254 | The sort is set, or falls back to id/desc; the current page is reloaded with the new link. |
| AllIncomes.GoToPage | src/app/administrator/auditor/all-incomes/all-incomes.component.ts:259-267 | A page out of range changes nothing and requests nothing; a page in range becomes current and is loaded. |
| AllIncomes.OnLoaded | src/app/administrator/auditor/all-incomes/all-incomes.component.ts:126-131 | Absent fields default; the window covers the reported page. |
| AllIncomes.ToggleSort | src/app/administrator/auditor/all-incomes/all-incomes.component.ts:416-418 | The result is "desc" iff the order is "asc", and it is always one of the two. |
| AllIncomes.ToggleSortTwice | src/app/administrator/auditor/all-incomes/all-incomes.component.ts:416-418 | On "asc"/"desc", toggling twice gives the order back. |
| AllIncomes.ExportRows | src/app/administrator/auditor/all-incomes/all-incomes.component.ts:293-300 | Export is refused iff the page is empty. |
| Expenses.QueryParams | src/app/administrator/expenses/expenses.component.ts:216-231 | The suffix is "" iff all seven fields are empty. |
| Expenses.Reload | src/app/administrator/expenses/expenses.component.ts:239-249 | The filtered endpoint is chosen iff a filter is active; the current page goes either way. |
| Expenses.SortAloneNotSent | src/app/administrator/expenses/expenses.component.ts:307-320 | With no filter set, a chosen sort still goes to the plain endpoint and so is never sent. |
| Expenses.UpdatePagination | src/app/administrator/expenses/expenses.component.ts:234-236 | There is one button per page, numbered from 0. |
| Expenses.OnLoaded | src/app/administrator/expenses/expenses.component.ts:165-213 | Absent fields default. Only the filtered load replaces the export source. The buttons are rebuilt. |
| Expenses.GoToPage | src/app/administrator/expenses/expenses.component.ts:239-249 | A page out of range is a no-op; a page in range becomes current and is dispatched. |
| Expenses.ApplyFilter | src/app/administrator/expenses/expenses.component.ts:263-289 | One field changes, the page becomes 0, and the request is dispatched on the filters. |
| Expenses.ClearingLastFilterLoadsPlain | src/app/administrator/expenses/expenses.component.ts:263-289 | Emptying the last set filter falls back to the plain first page. |
| Expenses.ClearFilters | src/app/administrator/expenses/expenses.component.ts:292-304 | All seven fields are empty and the plain first page is requested. |
| Expenses.SortData | src/app/administrator/expenses/expenses.component.ts:307-321 | Both sort fields are set or both cleared. The filtered request is made iff a filter is active. |
| Expenses.AddCheck | src/app/administrator/expenses/expenses.component.ts:416-419 | The add form is accepted iff `Number` of both the category and the staff member is a non-zero number; otherwise the category-and-staff message. |
| Expenses.EditCheck | src/app/administrator/expenses/expenses.component.ts:576-581 | The edit form also needs a date; otherwise its own message. |
| Expenses.EditStricterThanAdd | src/app/administrator/expenses/expenses.component.ts:576-581 | Whatever edit accepts, add accepts. With a date given, the two agree. |
| Expenses.ExportRows | src/app/administrator/expenses/expenses.component.ts:661-669 | Filtered rows first, else the page; refused iff both are empty. |
| UserExpenses.HasActiveFilters | src/app/administrator/user-expenses/user-expenses.component.ts:240-247 | Active iff the five-filter test holds with the staff member left out. |
| UserExpenses.ActiveAgreesWithExpenses | src/app/administrator/user-expenses/user-expenses.component.ts:240-247 | Without a staff filter, the four-filter test equals the five-filter one. |
| UserExpenses.Reload | src/app/administrator/user-expenses/user-expenses.component.ts:214-224 | The filtered endpoint is chosen iff one of the four filters is set. |
| UserExpenses.NoStaffInLink | src/app/administrator/user-expenses/user-expenses.component.ts:192-206 | The builder never pushes a staff_id parameter for this list. |
| UserExpenses.TypedCommentCarriesStaff | src/app/administrator/user-expenses/user-expenses.component.ts:192-206 | The comment goes out unescaped, so a comment "x&staff_id=s" makes the server read staff_id = s. |
| Query.RenderSplice | src/app/administrator/expenses/expenses.component.ts:216-231 | Nothing is escaped: a value holding "&k=v" renders exactly like a second parameter. |
| UserExpenses.TotalItems | src/app/administrator/user-expenses/user-expenses.component.ts:150 | The server's non-zero count is used, else totalPages times pageSize. |
| UserExpenses.OnLoaded | src/app/administrator/user-expenses/user-expenses.component.ts:137-160 | The current page is not read from the response. The count uses the fallback. One button per page. |
| UserExpenses.GoToPage | src/app/administrator/user-expenses/user-expenses.component.ts:214-224 | A page out of range is a no-op. |
| UserExpenses.OnPageChange | src/app/administrator/user-expenses/user-expenses.component.ts:227-237 | The page and page size are taken with no bounds check, and the page is dispatched. |
| UserExpenses.PageControlsAgree | src/app/administrator/user-expenses/user-expenses.component.ts:214-237 | The two controls agree on pages in range. Only the paginator loads pages out of range. |
| UserExpenses.SetOwnFilter | src/app/administrator/user-expenses/user-expenses.component.ts:250-267 | A "staff" filter is ignored; other types behave as on the expense list. |
| UserExpenses.ApplyFilter | src/app/administrator/user-expenses/user-expenses.component.ts:250-273 | Page 0, one field changed, no staff filter ever introduced. |
| UserExpenses.ClearFilters | src/app/administrator/user-expenses/user-expenses.component.ts:276-287 | Every field is empty and the plain first page is requested. |
| UserExpenses.SortData | src/app/administrator/user-expenses/user-expenses.component.ts:290-304 | With no filter, the plain endpoint is used and the sort is not sent. |
| UserExpenses.ExportRows | src/app/administrator/user-expenses/user-expenses.component.ts:312-320 | Filtered rows first, else the page; refused iff both are empty. |
| NewIncomes.HasActiveFilters | src/app/administrator/auditor/new-incomes/new-incomes.component.ts:174-180 | Active iff the five-filter test holds with the dates left out. |
| NewIncomes.HasDateFilter | src/app/administrator/auditor/new-incomes/new-incomes.component.ts:157 | Dated iff the five-filter test holds with only the dates kept. |
| NewIncomes.FilterTestsCover | src/app/administrator/auditor/new-incomes/new-incomes.component.ts:157-180 | The two tests together hold iff one of the five filters is set. |
| NewIncomes.OnLoaded | src/app/administrator/auditor/new-incomes/new-incomes.component.ts:111-134 | A response without a list leaves the view unchanged, because the handler throws first. Otherwise only unchecked rows are kept, the count falls back to their number, and the pager is set up from the page count. |
| NewIncomes.ShownAreTheUnchecked | src/app/administrator/auditor/new-incomes/new-incomes.component.ts:118 | The shown rows are, in order and with multiplicity, exactly the response's rows with code 1. |
| NewIncomes.PageByNumAsWritten | src/app/administrator/auditor/new-incomes/new-incomes.component.ts:154-169 | A date filter loads the page. A non-date filter resets to page 0. No filter loads the plain page. |
| NewIncomes.PageByNumAsWrittenIgnoresPage | src/app/administrator/auditor/new-incomes/new-incomes.component.ts:222-237 | With only a non-date filter, a button other than the first never loads its page. |
| NewIncomes.PageByNum | src/app/administrator/auditor/new-incomes/new-incomes.component.ts:154-169 | The requested page becomes current and is loaded through the endpoint the filters select. |
| NewIncomes.PageByNumAgreesOutsideTheBug | src/app/administrator/auditor/new-incomes/new-incomes.component.ts:154-169 | The corrected and the written pager agree everywhere except in the branch that resets. |
| NewIncomes.ApplyFilter | src/app/administrator/auditor/new-incomes/new-incomes.component.ts:242-280 | One field changes and the page resets to 0. Both branches make the same filtered request. |
| NewIncomes.ClearFilters | src/app/administrator/auditor/new-incomes/new-incomes.component.ts:192-204 | Everything is cleared and the plain first page is requested. |
| NewIncomes.SortData | src/app/administrator/auditor/new-incomes/new-incomes.component.ts:285-307 | The sort is set or cleared, and the current page is loaded through the filtered endpoint. |
| NewIncomes.Check | src/app/administrator/auditor/new-incomes/new-incomes.component.ts:506-568 | The highlight ends up cleared. A saved verdict reloads the plain current page. Anything else requests nothing. |
| NewIncomes.CheckSendsVerdict | src/app/administrator/auditor/new-incomes/new-incomes.component.ts:574-636 | Nothing is sent on cancel, otherwise code 2 (successful) or 3 (suspicious) for this income. |
| SuspiciousIncomes.Reload | src/app/administrator/auditor/suspicious-incomes/suspicious-incomes.component.ts:256-269 | The filtered endpoint is used iff one of the five filters is set. |
| SuspiciousIncomes.OnLoaded | src/app/administrator/auditor/suspicious-incomes/suspicious-incomes.component.ts:85-107 | A response without a list leaves the view unchanged, because the handler throws first. Otherwise only rows with code 3 are kept, and the count falls back to their number. |
| SuspiciousIncomes.ShownAreTheSuspicious | src/app/administrator/auditor/suspicious-incomes/suspicious-incomes.component.ts:92 | A row is shown iff the response has it with code 3. |
| SuspiciousIncomes.GoToPage | src/app/administrator/auditor/suspicious-incomes/suspicious-incomes.component.ts:256-269 | A page out of range is a no-op; a page in range is dispatched on the filters. |
| SuspiciousIncomes.ApplyFilter | src/app/administrator/auditor/suspicious-incomes/suspicious-incomes.component.ts:149-174 | One field changes and page 0 is requested through the filtered endpoint. |
| SuspiciousIncomes.ClearFilters | src/app/administrator/auditor/suspicious-incomes/suspicious-incomes.component.ts:132-144 | Everything is cleared and the plain first page is requested. |
| SuspiciousIncomes.SortData | src/app/administrator/auditor/suspicious-incomes/suspicious-incomes.component.ts:179-189 | Both sort fields are set or both cleared, and the filtered endpoint is always used. |
| SuspiciousIncomes.Check | src/app/administrator/auditor/suspicious-incomes/suspicious-incomes.component.ts:365-435 | A saved verdict reloads through the filter dispatch, so the filters stay in force. The highlight is cleared. |
| SuspiciousIncomes.CheckSendsVerdict | src/app/administrator/auditor/suspicious-incomes/suspicious-incomes.component.ts:437-505 | Nothing is sent on cancel, otherwise code 2 (successful) or 4 (failed). |
| DailyIncome.BuildFilterLink | src/app/administrator/daily-income-overall/daily-income-overall.component.ts:97-116 | The link is the set filters, then sort and order. It is never empty. |
| DailyIncome.FilterLinkDecodes | src/app/administrator/daily-income-overall/daily-income-overall.component.ts:97-116 | The server reads exactly the set filters in order and then the sort; "sort" reads the stored column. |
| DailyIncome.ApplyFilter | src/app/administrator/daily-income-overall/daily-income-overall.component.ts:121-136 | The comment is stored as typed. Dates become ISO text, or null for an empty picker. Other types change nothing. The page resets. |
| DailyIncome.ClearFilters | src/app/administrator/daily-income-overall/daily-income-overall.component.ts:141-149 | The filters become null/null/"" and the sort stays. The first page is requested with the sort alone. |
| DailyIncome.SortData | src/app/administrator/daily-income-overall/daily-income-overall.component.ts:172-176 | Column and direction each fall back on their own, to createdAt and desc. |
| DailyIncome.SortNeverEmpty | src/app/administrator/daily-income-overall/daily-income-overall.component.ts:172-176 | A sort is always sent. |
| DailyIncome.GoToPage | src/app/administrator/daily-income-overall/daily-income-overall.component.ts:181-184 | Any page is taken, with no range check. |
| DailyIncome.OnLoaded | src/app/administrator/daily-income-overall/daily-income-overall.component.ts:52-73 | Absent response fields read as empty or 0. The filters, the sort and today's entry are kept. |
| DailyIncome.AddDailyIncome | src/app/administrator/daily-income-overall/daily-income-overall.component.ts:189-205 | The create form opens iff there is no entry for today; otherwise editing today's entry is offered. |
| DailyIncome.ValidateAmounts | src/app/administrator/daily-income-overall/daily-income-overall.component.ts:255-266 | Any negative amount gives the negative-value message. An accepted form holds the four amounts with non-numbers as 0. |
| DailyIncome.ValidateAcceptsPositiveTotals | src/app/administrator/daily-income-overall/daily-income-overall.component.ts:380-390 | Accepted iff no amount is negative and the four add up to more than 0. |
| DailyIncome.HasActiveFilters | src/app/administrator/daily-income-overall/daily-income-overall.component.ts:154-160 | Active iff the link carries some filter parameter before the sort. |
| DailyIncome.EditDailyIncome | src/app/administrator/daily-income-overall/daily-income-overall.component.ts:310-413 | A locked entry only gets the warning. Otherwise the update is sent iff the form is confirmed and passes the amount check, and it carries this entry's id and the checked amounts. |
| DailyIncome.DeleteDailyIncome | src/app/administrator/daily-income-overall/daily-income-overall.component.ts:436-470 | A locked entry only gets the warning. Otherwise the delete of this entry is sent iff the user confirms. |
| DailyIncome.LockedEntryUntouched | src/app/administrator/daily-income-overall/daily-income-overall.component.ts:312-319 | A locked entry is never updated or deleted. An editable one can always be deleted and, with valid amounts, updated. |
| Incomes.Picked | src/app/administrator/incomes/incomes.component.ts:75-80 | A picked date is exactly the formatter's text, or null when it gives none, and never again undefined. |
| Incomes.PickedDatesReachLink | src/app/administrator/incomes/incomes.component.ts:75-80 | After both pickers fire, the date suffix reads back the formatter's texts, or "null" for each that gave none. |
| Incomes.DateLink | src/app/administrator/incomes/incomes.component.ts:124-125 | The text is "&startDate=", the start date as concatenation shows it, "&endDate=", and the end date. |
| Incomes.FilterLinkText | src/app/administrator/incomes/incomes.component.ts:154-164 | The suffix is the source's key-by-key concatenation of the five values. |
| Incomes.DateLinkDecodes | src/app/administrator/incomes/incomes.component.ts:124-125 | Both date keys are always sent. A date never picked arrives as the text "undefined". |
| Incomes.FilterLinkDecodes | src/app/administrator/incomes/incomes.component.ts:154-164 | All five keys are sent in order even when empty, and the values arrive unchanged. |
| Incomes.PageByNum | src/app/administrator/incomes/incomes.component.ts:68-73 | The page becomes current, the buttons turn active, and the plain list for that page is requested. |
| Incomes.PagingDropsDates | src/app/administrator/incomes/incomes.component.ts:68-73 | The paging request is the same whatever dates are picked. |
| Incomes.FilterByDate | src/app/administrator/incomes/incomes.component.ts:123-145 | The current page is requested through the date suffix, and both picked values arrive. |
| Incomes.SortData | src/app/administrator/incomes/incomes.component.ts:82-88 | A cleared sort requests the plain page. Otherwise the five-key link goes out, with empty filters and the column and direction in place. |
| Incomes.OnLoaded | src/app/administrator/incomes/incomes.component.ts:103-121 | Rows and page numbers are taken as sent. The pager flag rises only with more than one page. |
| Incomes.AddCheck | src/app/administrator/incomes/incomes.component.ts:242-246 | Accepted iff `Number` of the category is truthy, else the category message. |
| Incomes.EditCheck | src/app/administrator/incomes/incomes.component.ts:377-384 | Accepted iff the category is truthy and the date is non-empty. |
| Incomes.EditStricterThanAdd | src/app/administrator/incomes/incomes.component.ts:377-384 | Whatever edit accepts, add accepts. With a date given, the two agree. |
| BalanceControl.DateLinkText | src/app/administrator/balance-control/balance-control.component.ts:130-138 | The suffix is the source's key-by-key concatenation of the dates, column and direction. |
| BalanceControl.DateLinkDecodes | src/app/administrator/balance-control/balance-control.component.ts:130-138 | startDate, endDate, sort and order are always sent in that order, with their values unchanged. |
| BalanceControl.PageByNum | src/app/administrator/balance-control/balance-control.component.ts:74-79 | The page becomes current and the plain list is requested. |
| BalanceControl.FilterByDate | src/app/administrator/balance-control/balance-control.component.ts:129-141 | The current page is requested with the four-key suffix. |
| BalanceControl.SortData | src/app/administrator/balance-control/balance-control.component.ts:94-104 | Both sort fields are set or both cleared, and the date request always follows. |
| BalanceControl.OnPlainLoaded | src/app/administrator/balance-control/balance-control.component.ts:107-127 | A plain load empties the exportable rows and keeps the dates, the sort and the page-button state. The pager follows the legacy update. |
| BalanceControl.OnDateLoaded | src/app/administrator/balance-control/balance-control.component.ts:143-153 | A date load's rows are both shown and exportable. The dates, the sort and the page-button state are kept for the next request. |
| BalanceControl.ExportRows | src/app/administrator/balance-control/balance-control.component.ts:205-218 | Export happens iff the last date load left rows ("No data" otherwise). |
| BalanceControl.ExportFollowsLastLoad | src/app/administrator/balance-control/balance-control.component.ts:107-153 | Rows reached by paging are never exportable; a non-empty date load always is. |
| Users.RegisterCheck | src/app/administrator/users/users.component.ts:76-96 | Accepted iff none of the three inputs is blank. The trimmed values are handed on. |
| Users.EditCheck | src/app/administrator/users/users.component.ts:184-197 | Accepted iff username and password are non-empty as typed and the role number is truthy. |
| Users.BlankPassesEditOnly | src/app/administrator/users/users.component.ts:172-197 | A name and password of only spaces pass the edit check but fail registration. |
| Users.UserRole | src/app/administrator/users/users.component.ts:261-263 | Returns the name of the first role with that id, or undefined iff no role has it. |
| Users.DeleteNeedsPassword | src/app/administrator/users/users.component.ts:227-256 | The confirmation opens iff the password is "2". |
| Guards.CanActivate | src/app/services/owner-auth-guard.service.ts:11-20 | A refusal navigates to /dashboard, a grant navigates nowhere, and a missing role is refused. |
| Guards.AcceptedRoles | src/app/services/user-auth-guard.service.ts:12-15 | Owner admits "1"; manager admits "1" and "3"; user admits "1", "2" and "3"; auditor admits "5". |
| Guards.GuardChain | src/app/services/manager-auth-gaurd.service.ts:12-15 | Owner ⊆ manager ⊆ user, as sets of admitted roles. |
| Guards.AuditorDisjoint | src/app/services/auditor.guard.service.ts:12-15 | The auditor's role passes no other guard. |
| Guards.NobodyAdmitted | src/app/services/auditor.guard.service.ts:12-15 | Role "4" and a missing role pass no guard. |
| Routes.GuardOf | src/app/administrator/administrator.routes.ts:14-64 | The guard of the route with that path, or none iff no route has it. |
| Routes.Reachable | src/app/administrator/administrator.routes.ts:14-64 | The listed paths are exactly those whose guard admits the role. |
| Routes.PathsDistinct | src/app/administrator/administrator.routes.ts:18-61 | No two child routes share a path. |
| Routes.GuardsByRole | src/app/administrator/administrator.routes.ts:18-61 | Role "1" reaches all six routes, "3" the last three, "2" only user-expenses, and "5" none. |
| Sidebar.MenuFor | src/app/sidebar/sidebar.component.ts:262-273 | "1" gets the owner's menu, "2" the user's, "3" the manager's, anything else the template's; each starts with /dashboard. |
| Sidebar.MenusNested | src/app/sidebar/sidebar.component.ts:25-112 | User links ⊆ manager links ⊆ owner links. |
| Sidebar.OwnerMenuPasses | src/app/sidebar/sidebar.component.ts:25-69 | Every owner link opens a route whose guard admits "1". |
| Sidebar.ManagerMenuPasses | src/app/sidebar/sidebar.component.ts:71-96 | Every manager link opens a route whose guard admits "3". |
| Sidebar.UserMenuPasses | src/app/sidebar/sidebar.component.ts:99-112 | Every user link opens a route whose guard admits "2". |
| Sidebar.AuditorMenuRefused | src/app/sidebar/sidebar.component.ts:115-244 | The auditor is shown the template menu, whose administrator links all refuse the auditor. |
| Auth.DecodedToken | src/app/services/auth.service.ts:72-83 | No token or an empty token gives null. A non-empty stored token gives exactly what the decoder makes of it. |
| Auth.UserRole | src/app/services/auth.service.ts:86-92 | Null when nothing decodes, else the token's role claim. |
| Auth.SetUserDetails | src/app/services/auth.service.ts:94-100 | Writes only userId and roleId from the token, and throws without writing when nothing decodes. |
| Auth.GuardsReadTokenRole | src/app/services/auth.service.ts:94-100 | Afterwards the stored roleId is the token's role. |
| Auth.Logout | src/app/services/auth.service.ts:102-105 | Removes userId and roleId and nothing else. |
| Auth.LogoutLocksGuards | src/app/services/auth.service.ts:102-105 | After logout every guard refuses, while the token stays stored. |
| Interceptor.Sign | src/app/interceptors/auth.interceptor.ts:22-31 | A "Bearer" header is added iff a non-empty token is stored; otherwise the request is untouched. |
| Interceptor.OnError | src/app/interceptors/auth.interceptor.ts:43-55 | A 401 clears the whole store and goes to /login. Other statuses leave the store alone. The error is always rethrown. |
| Interceptor.UnauthorizedSignsOut | src/app/interceptors/auth.interceptor.ts:44-47 | After a 401 no guard admits anyone, and the interceptor adds no Authorization header to later requests. |
| Login.Submit | src/app/pages/login/login.component.ts:42-70 | An invalid form only sets the message. A failed call leaves the store. Success stores the token and username, then id and role. The form resets iff the dashboard navigation is scheduled. |
| Login.LoginGrantsTokenRole | src/app/pages/login/login.component.ts:52-62 | After a successful login with a decodable token, the guards decide by the token's role. |
| Login.TogglePasswordVisibility | src/app/pages/login/login.component.ts:79-81 | Always flips the flag. |
| Login.ToggleTwice | src/app/pages/login/login.component.ts:79-81 | Toggling twice restores the visibility it started with. |

## Left out

- Dialogs, DOM reads, scrolling and the sidebar's layout code are left out. These are SweetAlert, jQuery, `scrollIntoView`, PerfectScrollbar and `matchMedia`; they are browser side effects. The dialogs' outcome is an input (`Auditing.Answer`, `Result` replies).
- The HTTP services and rxjs ordering are left out. A request is the `ListView.Load` it would fire, and a response is an argument to the matching handler.
- Excel export is left out (XLSX, FileSaver, row formatting). Only the choice of rows and the refusal are modelled.
- `encodeURIComponent`, `DatePipe.transform`, `toISOString` and `jwtDecode` are left out. They are function parameters; a throwing `jwtDecode` is a `None` result.
- Floating point is left out. Amounts are reals; `parseFloat`/`Number` become `Num` (a number or NaN).
- Sidebar titles, icons, `type`, `collapse` and the template's sub-menus are left out, because they decide nothing about access.
- Route components and titles are left out; only each route's path and guard are kept.
- The category components, dashboard, administrator module and `.spec.ts` files are not part of this model.
- Query.Parse: the server's reading of a suffix, the partner of every builder. It splits on "&" and then on the first "=". It does not URL-decode, so the decode lemmas need texts without "&" (and keys without "=").
- UserExpenses.OnLoaded: the page buttons are rebuilt from the response's total but stored only through `updatePagination`; the paginator component itself is not modelled.
- Incomes.OnLoaded and BalanceControl.OnPlainLoaded model `mypages` only by its length (`LegacyPager.slots`), because its entries are constant placeholders.
- Incomes.SortData does not state the rendered text of the five-key link for values containing "&"; there the link can carry extra parameters, and only the clean case is decoded.
- UserExpenses.NoStaffInLink: speaks of the parameters the builder pushes, not of what the server reads. The expense lists send the comment unencoded, so a typed comment containing "&staff_id=…" does reach the server as a staff filter (UserExpenses.TypedCommentCarriesStaff).
- NewIncomes.OnLoaded: the response's currentPage and totalPages are taken to be present. An absent one becomes `undefined` in the source, which switches the pager off; the integer-typed view cannot hold it.
- SuspiciousIncomes.OnLoaded: likewise assumes currentPage and totalPages are present; an absent one would make them `undefined`.
- Interceptor.UnauthorizedSignsOut: covers only the header the interceptor adds. Several services build their own `Bearer …` header once, when they are constructed, and send it with their calls: AuthService (auth.service.ts lines 13-17, for the user-list, update and delete calls), IncomesService (incomes.service.ts lines 16-19) and CategoriesService (categories.service.ts lines 17-20). After a 401 those calls still carry the stale token, or "Bearer null". The services' constructor-time headers are not part of this model.
- Login.Submit: the error message of a failed login is taken to be a string; `err.error.error` being undefined is not modelled.

## Findings

| source | as written | input that shows it | evidently intended | confidence | as-written member | corrected member |
|---|---|---|---|---|---|---|
| src/app/administrator/auditor/new-incomes/new-incomes.component.ts:154-169 | With only a category, comment or staff filter set, `pagebyNum(page)` sets `currentPage = page` and calls `applyFilters`, which sets `currentPage = 0` before loading (lines 222-237). | category_id = "5", no dates, click page button 2: the request asks for page 0. | The clicked page is loaded through the filtered endpoint. | not executed; high (read from the code) | NewIncomes.PageByNumAsWrittenIgnoresPage | NewIncomes.PageByNum |
