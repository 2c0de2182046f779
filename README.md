# Vignan College fee management: a verified model of the dashboard's logic

The system is a React dashboard for a college's fee office. It has three roles: admin, principal
and cashier. The dashboard runs on in-memory lists of students, payments and daily cash sessions.
This project models in Dafny the decision and state logic inside its pages:

- the role-based router and the sidebar's role filter (`App`, `Sidebar`);
- the cashier's daily session screen, as a class with the page's state fields (`DailySessionScreen`);
- the user table, with its create and edit validators and its create, save and toggle updates (`UserManagementScreen`);
- fee collection, with first-match student search, amount validation, the receipt and the form reset (`FeeCollectionScreen`);
- the case-insensitive, order-preserving searches of the student list and the reprint screen (`StudentManagementScreen`, `ReprintReceiptScreen`);
- the report and dashboard aggregates, including the figures the pages hard-code (`FinancialReportsScreen`, `AdminDashboardScreen`, `PrincipalDashboardScreen`, `Totals`);
- avatar initials (`ProfileScreen`);
- the theme provider, which keeps exactly one of `light`/`dark` on the document root and stores the choice (`ThemeSettings`).

Supporting modules hold the JavaScript built-ins the pages use:

- `Lists`: `filter`, `find` and `reduce`.
- `Text`: `trim`, `toLowerCase`/`toUpperCase`, `includes`, `split` and `String(n)`.
- `NumberParsing`: `parseFloat`.
- `Types`: the records of `src/types/index.ts`.
- `Wrappers`: `Option` and `Result`.

Mock data is never fixed. Student, payment and session lists are parameters or constructor
arguments. The clock, random draws and UUIDs are parameters too. The stored theme and the system
colour-scheme preference are inputs.

Pages whose state changes step by step are classes whose methods state the whole new state. These
are `SessionControl`, `UserManagement`, `FeeCollection`, `ReprintReceipt` and `ThemeProvider`. A
scenario method beside each class drives a fresh instance through a typical sequence and states
the outcome. Examples are `DayCycle`, `CreateOnce`, `CollectOnce`, `SearchTwice` and
`ChooseThenReload`.

Amounts are whole rupees and are modelled as `int`.

## Model

| member | source | states |
|---|---|---|
| Types.ParseRole | src/types/index.ts:1 | a role string names a role exactly when it is the spelling of that role |
| App.Route | src/App.tsx:41-50 | a path renders a page exactly when it is in the role's table, and then the page the table maps it to; any other path falls to the `*` NotFound route |
| App.DashboardRouter | src/App.tsx:31-81 | no user redirects to `/login`; a role outside the three redirects to `/login`; otherwise the path is looked up in that role's table, and only those cases redirect |
| App.RoleTables | src/App.tsx:39-78 | the exact path sets routed for admin (7 paths), principal (4) and cashier (4); every other path is NotFound |
| App.PrincipalSharesAdminPages | src/App.tsx:41-60 | `/view-students`, `/view-reports` and `/view-audit` render the pages the admin gets at `/students`, `/reports` and `/audit-logs` |
| App.CashierHomeIsFeeCollection | src/App.tsx:68-76 | the cashier's `/` and `/fee-collection` both render FeeCollection |
| App.RoutesDisjoint | src/App.tsx:39-78 | apart from `/`, a path rendered for two users implies both have the same role |
| App.ProfileAndSettingsAreNotFound | src/App.tsx:38-78 | `/profile` and `/settings` are NotFound for every role |
| Sidebar.FilteredNavItems | src/components/layout/Sidebar.tsx:112-114 | no user gives no links; the links kept are a subsequence of the table, in its order |
| Sidebar.ShownIffRoleIncluded | src/components/layout/Sidebar.tsx:112-114 | an item is shown exactly when there is a user and that user's role is in the item's roles |
| Sidebar.FilterSection | src/components/layout/Sidebar.tsx:32-106 | a section whose items all belong to one role is kept whole for that role and dropped for every other role |
| Sidebar.FilterTable | src/components/layout/Sidebar.tsx:25-107 | a table laid out as the shared link followed by the admin, principal and cashier sections shows each role the shared link followed by its own section |
| Sidebar.LinksPerRole | src/components/layout/Sidebar.tsx:25-114 | each role sees the Dashboard link followed by exactly its own section |
| Sidebar.NoLinksForUnknownRole | src/components/layout/Sidebar.tsx:112-114 | a role string outside the three roles sees no link |
| Sidebar.LinkCounts | src/components/layout/Sidebar.tsx:32-106 | admin sees 7 links, principal 4, cashier 4 |
| Sidebar.DashboardShownToEveryRole | src/components/layout/Sidebar.tsx:25-31 | the Dashboard link `/` is shown, and shown first, to each of the three roles |
| Sidebar.SectionRouted | src/components/layout/Sidebar.tsx:25-107 | every path in a role's links is in that role's route table |
| Sidebar.ShownLinksAreRouted | src/components/layout/Sidebar.tsx:25-114 | every link shown to a user renders a page, never NotFound or a redirect, for that user |
| DailySessionScreen.CurrentSession | src/pages/cashier/DailySession.tsx:10 | the first open session of the list, or none exactly when no session is open |
| DailySessionScreen.InitiallyOpen | src/pages/cashier/DailySession.tsx:11 | the screen starts open exactly when some session in the list is open |
| DailySessionScreen.NewSession | src/pages/cashier/DailySession.tsx:17-29 | the started session: id `String(length + 1)`, the given date and time, opened by "Priya Sharma", open, no closer, all counts and amounts zero |
| DailySessionScreen.NewSessionBalanced | src/pages/cashier/DailySession.tsx:23-28 | a fresh session's total equals the sum of its four mode subtotals, and is 0 |
| DailySessionScreen.NewSessionIdReused | src/pages/cashier/DailySession.tsx:18 | every start on one screen gets the same id; starts at different times give different records |
| DailySessionScreen.SessionControl.constructor | src/pages/cashier/DailySession.tsx:10-13 | the screen starts with the first open session, open exactly when one exists, summary hidden |
| DailySessionScreen.SessionControl.HandleStartDay | src/pages/cashier/DailySession.tsx:15-32 | the screen is open with a new zeroed session; no guard on the current state |
| DailySessionScreen.SessionControl.HandleCloseDay | src/pages/cashier/DailySession.tsx:34-36 | only the summary is shown; `isOpen` and the session record are unchanged |
| DailySessionScreen.SessionControl.ConfirmClosing | src/pages/cashier/DailySession.tsx:38-42 | the screen is closed and the summary hidden; the session record, totals included, is untouched and gets no closer |
| DailySessionScreen.SessionControl.SetShowClosingSummary | src/pages/cashier/DailySession.tsx:150 | dismissing the dialog changes only its visibility |
| DailySessionScreen.SessionControl.OfferedAction | src/pages/cashier/DailySession.tsx:92-102 | start is offered exactly when closed, closing exactly when open |
| DailySessionScreen.DayCycle | src/pages/cashier/DailySession.tsx:15-42 | after start, close request and confirm, start is offered again; the next start yields a zeroed, balanced session with the same id |
| UserManagementScreen.SeedUsersDeactivatedAreOffline | src/pages/admin/UserManagement.tsx:95-147 | the seed rows are all active, so they satisfy "every deactivated user is offline" |
| UserManagementScreen.CanCreate | src/pages/admin/UserManagement.tsx:175-189 | an enabled create implies a role is chosen and the passwords are equal |
| UserManagementScreen.CanCreateIffComplete | src/pages/admin/UserManagement.tsx:175-189 | `canCreate` holds exactly when all ten text fields are non-blank after trimming, a role is chosen, and password equals confirmation exactly, untrimmed |
| UserManagementScreen.NewUser | src/pages/admin/UserManagement.tsx:210-228 | the new row has the fresh id and chosen role; the full name is the trim of the untrimmed first and last names joined by a space; last name, parents' names, gender, date of birth and address are each the trim of the form's field; the account is active and offline |
| UserManagementScreen.TrimKeepsNonBlank | src/pages/admin/UserManagement.tsx:214-222 | a non-blank input stays non-blank after `trim` |
| UserManagementScreen.CreatedUserHasNoBlankField | src/pages/admin/UserManagement.tsx:175-228 | a row created from a form that passes `canCreate` has no blank text field |
| UserManagementScreen.FullNameNonBlank | src/pages/admin/UserManagement.tsx:210 | a non-blank first name gives a non-blank full name |
| UserManagementScreen.CurrentEditingUser | src/pages/admin/UserManagement.tsx:257-260 | the row with the selected id that precedes every other row with that id; none with no selection or no such row |
| UserManagementScreen.OpenEditForm | src/pages/admin/UserManagement.tsx:262-270 | the edit form starts from the row's full name, role and active flag, with the reset off and an empty password |
| UserManagementScreen.HasEditChanges | src/pages/admin/UserManagement.tsx:272-281 | false with no selected row; otherwise true exactly when the role, the trimmed name or the active flag differs from the row, or a reset with a non-blank password is requested |
| UserManagementScreen.OpenedFormHasNoChanges | src/pages/admin/UserManagement.tsx:262-281 | right after `openEdit`, Save is enabled exactly when the row's full name has surrounding whitespace |
| UserManagementScreen.ApplyEdit | src/pages/admin/UserManagement.tsx:290-297 | the edited row keeps id, username, parents' names, gender, date of birth and address; it takes the trimmed name, the role and the status; it is offline when deactivated and keeps its login status when active |
| UserManagementScreen.UnchangedFormSavesNothing | src/pages/admin/UserManagement.tsx:272-297 | saving a form `hasEditChanges` rejects leaves a row that satisfies the invariant unchanged |
| UserManagementScreen.SaveEdit | src/pages/admin/UserManagement.tsx:286-301 | the same length; rows with another id are unchanged; rows with the id are edited; the deactivated-offline invariant is preserved |
| UserManagementScreen.Toggle | src/pages/admin/UserManagement.tsx:314-327 | only rows with the id change, and only in status; Active becomes Deactivated and Offline; Deactivated becomes Active and keeps its login status; the invariant is preserved |
| UserManagementScreen.ToggleTwice | src/pages/admin/UserManagement.tsx:314-327 | toggling twice restores every status, and every row except an online one whose deactivation logged it out |
| UserManagementScreen.UserManagement.constructor | src/pages/admin/UserManagement.tsx:153-173 | the screen starts with the seed rows, empty forms, both dialogs closed and the invariant holding |
| UserManagementScreen.UserManagement.CreateEnabled | src/pages/admin/UserManagement.tsx:606 | an enabled create button implies a role and equal passwords |
| UserManagementScreen.UserManagement.SaveEnabled | src/pages/admin/UserManagement.tsx:696-697 | an enabled save button implies a row is selected |
| UserManagementScreen.UserManagement.SetShowCreateModal | src/pages/admin/UserManagement.tsx:447 | only the create dialog's visibility changes |
| UserManagementScreen.UserManagement.SetCreateForm | src/pages/admin/UserManagement.tsx:159-173 | only the create form changes |
| UserManagementScreen.UserManagement.HandleCreateUser | src/pages/admin/UserManagement.tsx:204-246 | a password mismatch changes nothing; otherwise the new row is prepended to the previous rows, the form is reset, the dialog closed, and the invariant kept |
| UserManagementScreen.UserManagement.OpenEdit | src/pages/admin/UserManagement.tsx:262-270 | selects the row, loads the form and opens the dialog; the table is unchanged |
| UserManagementScreen.UserManagement.SetEditForm | src/pages/admin/UserManagement.tsx:251-255 | only the edit form changes |
| UserManagementScreen.UserManagement.SetShowEditModal | src/pages/admin/UserManagement.tsx:618 | only the edit dialog's visibility changes |
| UserManagementScreen.UserManagement.HandleSaveEdit | src/pages/admin/UserManagement.tsx:283-312 | with no selected row nothing changes; otherwise the table is saved by id, the dialog closed and the selection cleared; the invariant is kept |
| UserManagementScreen.UserManagement.HandleToggleAccount | src/pages/admin/UserManagement.tsx:314-327 | the table becomes its toggle by id, the invariant is kept, and the dialogs are untouched |
| UserManagementScreen.CreateOnce | src/pages/admin/UserManagement.tsx:204-246 | the list starts as the seed rows; a create from a complete form adds exactly one active, offline row in front of them, and the invariant holds |
| StudentManagementScreen.MatchesSearchProperties | src/pages/admin/StudentManagement.tsx:15-16 | the empty term matches every student; upper- or lower-casing the term never changes the match |
| StudentManagementScreen.FilteredStudents | src/pages/admin/StudentManagement.tsx:14-19 | a student is kept exactly when name or roll number contains the term ignoring case and the status filter allows it; every kept student has the chosen status; the result is a subsequence in list order and never longer than the list |
| StudentManagementScreen.EmptySearchShowsAll | src/pages/admin/StudentManagement.tsx:15-17 | an empty term with filter `all` shows every student |
| StudentManagementScreen.StatusFilterNarrows | src/pages/admin/StudentManagement.tsx:17 | a status filter keeps exactly those of the `all` results that have that status |
| StudentManagementScreen.StatusVariant | src/pages/admin/StudentManagement.tsx:21-32 | secondary exactly for "Partially Paid", destructive exactly for "Pending" |
| StudentManagementScreen.StatusVariantOfLabels | src/pages/admin/StudentManagement.tsx:21-32 | Fully Paid, Partially Paid and Pending map to default, secondary and destructive; any other string maps to default |
| FeeCollectionScreen.FindStudent | src/pages/cashier/FeeCollection.tsx:24-27 | the first student in list order whose lower-cased name or roll number contains the lower-cased term; none exactly when nobody matches |
| FeeCollectionScreen.EmptyTermFindsFirst | src/pages/cashier/FeeCollection.tsx:24-27 | an empty term selects the first student of a non-empty list |
| FeeCollectionScreen.AcceptedAmount | src/pages/cashier/FeeCollection.tsx:37 | an amount that passes the guard is non-empty and parses to a positive number or to NaN |
| FeeCollectionScreen.RefusedAmounts | src/pages/cashier/FeeCollection.tsx:37 | the empty amount, `0` and every negative whole amount are refused |
| FeeCollectionScreen.WholeAmountAccepted | src/pages/cashier/FeeCollection.tsx:37 | every positive whole amount is accepted |
| FeeCollectionScreen.NonNumericAmountAccepted | src/pages/cashier/FeeCollection.tsx:37 | a non-empty amount without any digit parses to NaN and passes the guard |
| FeeCollectionScreen.PositiveAmountHasDigits | src/pages/cashier/FeeCollection.tsx:37 | an amount that parses to a positive value is accepted and contains a digit |
| FeeCollectionScreen.MakeReceipt | src/pages/cashier/FeeCollection.tsx:42-50 | receipt number `RCP/2024/<draw>`; the selected student's name and roll number, absent with no selection; the parsed amount, the mode and the remarks |
| FeeCollectionScreen.FeeCollection.constructor | src/pages/cashier/FeeCollection.tsx:15-21 | empty inputs, no selection, mode Cash, no receipt shown |
| FeeCollectionScreen.FeeCollection.SetSearchTerm | src/pages/cashier/FeeCollection.tsx:83 | only the search term changes |
| FeeCollectionScreen.FeeCollection.SetAmount | src/pages/cashier/FeeCollection.tsx:146 | only the amount changes |
| FeeCollectionScreen.FeeCollection.SetPaymentMode | src/pages/cashier/FeeCollection.tsx:152-169 | only the mode changes, to one of Cash, Card, UPI and Cheque |
| FeeCollectionScreen.FeeCollection.SetRemarks | src/pages/cashier/FeeCollection.tsx:178 | only the remarks change |
| FeeCollectionScreen.FeeCollection.SetShowReceipt | src/pages/cashier/FeeCollection.tsx:191 | only the receipt dialog's visibility changes; the receipt is kept |
| FeeCollectionScreen.FeeCollection.HandleSearch | src/pages/cashier/FeeCollection.tsx:23-34 | the first match becomes the selection; with no match the selection is unchanged |
| FeeCollectionScreen.FeeCollection.HandleSubmitPayment | src/pages/cashier/FeeCollection.tsx:36-59 | a refused amount changes nothing; an accepted one stores and shows its receipt and clears amount and remarks, keeping mode and selection; the student list is a constant the screen never changes |
| FeeCollectionScreen.CollectOnce | src/pages/cashier/FeeCollection.tsx:14-59 | searching and submitting a positive whole amount on a fresh screen yields a receipt of that amount, in mode Cash, for the found student, and clears the amount |
| ReprintReceiptScreen.SearchPayments | src/pages/cashier/ReprintReceipt.tsx:14-18 | a payment is kept exactly when its student name or receipt number contains the term ignoring case; the result is a subsequence in list order |
| ReprintReceiptScreen.EmptyTermShowsAll | src/pages/cashier/ReprintReceipt.tsx:14-18 | the empty term restores the full list |
| ReprintReceiptScreen.SearchIdempotent | src/pages/cashier/ReprintReceipt.tsx:14-19 | searching the result again with the same term changes nothing |
| ReprintReceiptScreen.ReprintReceipt.constructor | src/pages/cashier/ReprintReceipt.tsx:10-11 | initially every payment is listed and the term is empty |
| ReprintReceiptScreen.ReprintReceipt.SetSearchTerm | src/pages/cashier/ReprintReceipt.tsx:44 | typing changes the term and not the list |
| ReprintReceiptScreen.ReprintReceipt.HandleSearch | src/pages/cashier/ReprintReceipt.tsx:13-20 | the list becomes the search of the full payments, never of the previous result |
| ReprintReceiptScreen.ReprintReceipt.HandleReprint | src/pages/cashier/ReprintReceipt.tsx:22-25 | the notice is "Reprinting receipt " followed by the receipt number; no state changes |
| ReprintReceiptScreen.ReprintReceipt.NoReceiptsFound | src/pages/cashier/ReprintReceipt.tsx:99-103 | the empty-result message is shown exactly when the list is empty |
| ReprintReceiptScreen.SearchTwice | src/pages/cashier/ReprintReceipt.tsx:13-20 | two searches with one term give the same list, empty exactly when no payment matches |
| Totals.PaymentsTotal | src/pages/admin/Dashboard.tsx:47 | the sum of the payment amounts is non-negative when every amount is |
| Totals.PaymentsTotalAppend | src/pages/admin/FinancialReports.tsx:83 | the payment total of two lists is the sum of their totals |
| Totals.PaymentsTotalAddOne | src/pages/admin/FinancialReports.tsx:83 | one more payment raises the total by its amount |
| Totals.PendingTotal | src/pages/admin/Dashboard.tsx:48 | the sum of pending balances is non-negative when every balance is |
| Totals.PendingTotalAppend | src/pages/admin/FinancialReports.tsx:173 | the pending total of two lists is the sum of their totals |
| FinancialReportsScreen.DailyCollectionTotal | src/pages/admin/FinancialReports.tsx:83 | 0 for no payments, and one more payment adds exactly its amount |
| FinancialReportsScreen.PendingRows | src/pages/admin/FinancialReports.tsx:156 | exactly the students with a positive pending balance, in list order |
| FinancialReportsScreen.PendingFooterVersusRows | src/pages/admin/FinancialReports.tsx:156-173 | the footer sums every student and is never more than the listed rows' sum; the two are equal when no balance is negative |
| FinancialReportsScreen.ModeFooterAppend | src/pages/admin/FinancialReports.tsx:124-127 | the footer of two tables put together is the sum of their footers |
| FinancialReportsScreen.ModeWiseTable | src/pages/admin/FinancialReports.tsx:13-18 | the rows are Cash, Card, UPI and Cheque in that order, and the footer reads 3 transactions and 133000 |
| FinancialReportsScreen.CashierSummaryAgrees | src/pages/admin/FinancialReports.tsx:199-204 | the hard-coded cashier row (3, ₹133,000) equals the mode-wise footer |
| AdminDashboardScreen.DashboardStats | src/pages/admin/Dashboard.tsx:47-51 | total collection is the sum of payment amounts and pending fees the sum of pending balances; the student count; today's collection is 63100 whatever the payments; active cashiers are 0; totals are non-negative when amounts and balances are |
| AdminDashboardScreen.NewPaymentRaisesTotal | src/pages/admin/Dashboard.tsx:47-50 | a new payment raises the total collection by its amount and leaves today's collection unchanged |
| AdminDashboardScreen.RecentPayments | src/pages/admin/Dashboard.tsx:157 | the first min(5, n) payments, in order |
| AdminDashboardScreen.ModeColoursConsistent | src/pages/admin/Dashboard.tsx:25-37 | every mode has a colour, each chart slice's colour equals `modeColors` of its name, and the slices are Cash, Card, UPI and Cheque |
| AdminDashboardScreen.ModeSwatch | src/pages/admin/Dashboard.tsx:168 | a recent payment's swatch is the colour of its mode's chart slice |
| PrincipalDashboardScreen.PrincipalFigures | src/pages/principal/PrincipalDashboard.tsx:7-9 | total collection is the sum of payment amounts, pending fees the sum of pending balances, and the student count; totals are non-negative when amounts and balances are |
| PrincipalDashboardScreen.SameFiguresAsAdmin | src/pages/principal/PrincipalDashboard.tsx:7-9 | the three figures equal the admin dashboard's for the same data |
| PrincipalDashboardScreen.NewPaymentRaisesFigure | src/pages/principal/PrincipalDashboard.tsx:7-9 | a new payment raises the total collection by its amount and leaves the other two figures unchanged |
| PrincipalDashboardScreen.PaymentListing | src/pages/principal/PrincipalDashboard.tsx:56 | every payment, in order |
| PrincipalDashboardScreen.RecentIsPrefixOfListing | src/pages/principal/PrincipalDashboard.tsx:56 | the admin's recent payments are a prefix of the principal's listing, equal to it exactly when there are at most five payments |
| ProfileScreen.FirstChars | src/pages/shared/Profile.tsx:15-16 | one character per non-empty piece: the k-th is the first character of the k-th non-empty piece |
| ProfileScreen.Initials | src/pages/shared/Profile.tsx:12-18 | one character per non-empty piece of `split(' ')`: the k-th is the upper-cased first character of the k-th non-empty piece; never a space |
| ProfileScreen.InitialsOfTwoWords | src/pages/shared/Profile.tsx:12-18 | two words joined by one space give their two upper-cased first letters |
| ProfileScreen.DisplayName | src/pages/shared/Profile.tsx:38-39 | the name when present and non-empty, otherwise the fallback |
| ProfileScreen.MissingNameInitials | src/pages/shared/Profile.tsx:38-39 | with no name, both fallbacks `U` and `User` give the initials `U` |
| ThemeSettings.ResolvedClass | src/providers/ThemeProvider.tsx:31-35 | always `light` or `dark`; `system` gives dark exactly when the system prefers dark; light and dark give themselves |
| ThemeSettings.ApplyTheme | src/providers/ThemeProvider.tsx:27-36 | the resolved class is present, exactly one of light/dark is present, and every other class is untouched |
| ThemeSettings.ApplyThemeIdempotent | src/providers/ThemeProvider.tsx:27-36 | applying a theme twice equals applying it once |
| ThemeSettings.ApplyThemeLastWins | src/providers/ThemeProvider.tsx:27-36 | only the last application counts |
| ThemeSettings.ThemeProvider.constructor | src/providers/ThemeProvider.tsx:13 | the theme starts as `system` |
| ThemeSettings.ThemeProvider.Mount | src/providers/ThemeProvider.tsx:16-24 | the stored theme, or `system` when none is stored, becomes active and is applied; storage is unchanged |
| ThemeSettings.ThemeProvider.SetTheme | src/providers/ThemeProvider.tsx:38-43 | the state and the stored `app-theme` become the new theme, which is applied |
| ThemeSettings.ThemeProvider.Context | src/providers/ThemeProvider.tsx:46 | the context carries the provider's current theme |
| ThemeSettings.UseTheme | src/providers/ThemeProvider.tsx:52-55 | outside a provider, an error carrying "useTheme must be used inside ThemeProvider"; inside, the context |
| ThemeSettings.FirstVisit | src/providers/ThemeProvider.tsx:13-24 | with nothing stored, the theme is `system` and the root is dark exactly when the system prefers dark, light otherwise |
| ThemeSettings.ChooseThenReload | src/providers/ThemeProvider.tsx:16-43 | a theme chosen with `setTheme` is the one the next mount restores and applies |
| Text.Trim | src/pages/admin/UserManagement.tsx:177-186 | `trim` is no longer than its input, and neither starts nor ends with whitespace |
| Text.TrimIsSlice | src/pages/admin/UserManagement.tsx:177-186 | `trim` is the contiguous slice of its input left after removing a whitespace-only head and a whitespace-only tail |
| Text.BlankIffTrimEmpty | src/pages/admin/UserManagement.tsx:177-186 | a string is all whitespace exactly when its trim is empty, so the truthiness test of `x.trim()` is "not blank" |
| Text.TrimIdempotent | src/pages/admin/UserManagement.tsx:275 | trimming twice is trimming once |
| Text.IncludesIgnoresCase | src/pages/admin/StudentManagement.tsx:15-16 | lower-casing both sides makes the match independent of the term's case and the text's case |
| Text.EmptyTermMatches | src/pages/cashier/ReprintReceipt.tsx:16-17 | every text includes the empty term |
| Text.Split | src/pages/shared/Profile.tsx:14 | at least one piece, and no piece contains the separator |
| Text.JoinSplit | src/pages/shared/Profile.tsx:14 | joining the pieces of `split` with the separator restores the string |
| NumberParsing.ParseFloatPositive | src/pages/cashier/FeeCollection.tsx:37 | a positive `parseFloat` reading needs a digit and no leading minus sign |
| NumberParsing.ParseFloatOfDecimal | src/pages/cashier/FeeCollection.tsx:46 | `parseFloat(String(n)) == n` for every natural `n` |
| NumberParsing.ParseFloatOfNegative | src/pages/cashier/FeeCollection.tsx:37 | `parseFloat("-" + String(n)) == -n` |
| NumberParsing.ParseFloatWithoutDigits | src/pages/cashier/FeeCollection.tsx:37 | a string without digits reads as NaN |
| Lists.Filter | src/pages/admin/StudentManagement.tsx:14 | `filter` keeps exactly the elements that satisfy the predicate |
| Lists.FilterCounts | src/pages/admin/StudentManagement.tsx:14 | `filter` keeps every occurrence of a satisfying element and no occurrence of any other element |
| Lists.FilterIsSubsequence | src/pages/cashier/ReprintReceipt.tsx:14 | `filter` keeps list order, so its result is a subsequence |
| Lists.FilterIdempotent | src/pages/cashier/ReprintReceipt.tsx:14-18 | filtering twice with one predicate is filtering once |
| Lists.Find | src/pages/cashier/FeeCollection.tsx:24 | `find` returns the first element that satisfies the predicate, and none exactly when no element does |
| Lists.SumOfFilter | src/pages/admin/FinancialReports.tsx:156-173 | summing over all elements is at most summing over the filtered ones when the dropped ones are non-positive, and equal when they are zero |

## Left out

- Login and `useAuth` are not part of this model. The signed-in user is an input whose role is kept as a string, so that the router's fallback for an unknown role is reachable.
- The header, the layout shell and `formatCurrency` are not part of this model. They hold navigation, a loading spinner and floating-point currency formatting.
- The random receipt draw, `new Date()`, `crypto.randomUUID()` and the locale date strings are parameters: `draw`, `now`, `today`, `freshId` and `date`.
- `toast`, `window.print` and the toast-only handlers are left out. These include export on the reports page (src/pages/admin/FinancialReports.tsx:9-11) and change-password on the profile page (src/pages/shared/Profile.tsx:20-23). They change no data.
- `localStorage` and `window.matchMedia` are inputs. The stored map holds `Theme` values only, because `setTheme` is the only writer. A foreign string stored under `app-theme` is not modelled.
- The mock lists of `@/utils/dummyData` are not part of this model. Students, payments and sessions are parameters.
- The pages with only constant style tables are not part of this model: audit logs, academic management, fee structure, settings and the stats card. The same goes for the dashboard's bar-chart data (src/pages/admin/Dashboard.tsx:39-44).
- App.Route: route matching is literal string lookup. React Router's case-insensitive matching and trailing-slash normalisation are not modelled.
- Text.ToLower: `toLowerCase` and `toUpperCase` are modelled on ASCII letters only. Other scripts' case mappings are left out.
- NumberParsing.ParseFloatPositive: `parseFloat` is modelled for an optional sign, digits and an optional fraction. The exponent, `Infinity` and IEEE rounding are left out. Values are exact reals.
- ProfileScreen.FirstChars: `n[0]` is modelled on code points. UTF-16 surrogate halves are not.
- DailySessionScreen.SessionControl.HandleStartDay: payments never feed the session totals, refusing to reopen a closed day is not modelled, and `closedBy`/`closedAt` are never set. The code does none of these.
- FinancialReportsScreen.ModeWiseTable: the mode-wise rows, the cashier row and the admin chart's `modeData` are constants written into the pages. The model proves what those constants add up to, not that they agree with the payments.
- UserManagementScreen.UserManagement.HandleCreateUser: requires that a role is chosen. The button is disabled unless `canCreate` holds (src/pages/admin/UserManagement.tsx:606), so an unset role never reaches `cuRole as Role`.
- UserManagementScreen.UserManagement.SetEditForm: requires a role in the form once a row is selected. The role select only offers the three roles.
