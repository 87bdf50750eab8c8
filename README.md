# Donation app client — a Dafny model

This project models the logic of a React client for a donation platform. Donors give to
campaigns, and administrators verify donations, manage campaigns and look at totals.
The model covers:

- the session store (token, user, role test, persistence) and the theme store;
- the route gate that sends visitors to the login page or the dashboard;
- the campaign list: donations reconciled into each campaign's verified total, the
  active-first ordering, the progress bar, expiry, card badges and buttons, the
  create/edit form, and the page handlers;
- the campaign details page: the raised amount, the progress and the badge;
- the dashboard: the three totals, the five most recent donations, the table;
- the donations page: the four-filter pipeline, the local "Verified" patch, the table;
- the receipts page: the verified-only list, receipt numbers, PDF file names and the
  fallbacks of the printed fields;
- the navigation bar's page titles, initials and logout;
- the profile, registration, login and reset-password forms: validators, field edits and
  submits.

Values the pages build are datatypes and functions. State the source updates in place
(the stores, each page's state, a validator's `newErrors`, the dashboard's `forEach`
totals) is held in classes and in methods with loops or step-by-step updates. Each such
method's `ensures` gives the new state. The validators, `ComputeStats`, `ApplyFilters`,
`FilterEffect`, `FetchProfile` and the field edits are proved equal to a specification
function. Network calls, the clock and value
formatting are parameters. A request's outcome is a `Fetch` value: `Fetched(data)` or
`Failed(message)`. Today's date and deadlines are day numbers.

Module layout:

- `JsCore`: the JavaScript semantics used: truthiness and `||`, `trim`, ASCII case mapping,
  `includes`, `slice`, `split(' ')`, `filter`, `reduce`, and `Array.prototype.sort`
  modelled as a stable insertion sort.
- `Records`: the records and the id and fallback rules shared by the pages.
- `Forms`: the shared form rules.
- One module per store, component or page.

## Model

| member | source | states |
|---|---|---|
| JsCore.TrimEmptyIffBlank | src/pages/Campaigns.jsx:170-171 | `s.trim()` is empty exactly when every character of `s` is whitespace |
| JsCore.JoinHeadsOfSplit | src/layout/Navbar.jsx:30 | splitting on single spaces and joining each piece's first character yields exactly the characters that start a word, by an independent definition |
| JsCore.FilterMembers | src/pages/Donations.jsx:36-52 | an element survives `filter` exactly when it was in the list and passes the test |
| JsCore.FilterIsSubsequence | src/pages/Donations.jsx:36-52 | `filter` only removes elements and keeps the rest in order |
| JsCore.FilterFusion | src/pages/Donations.jsx:42-52 | filtering twice equals filtering once by the conjunction of the two tests |
| JsCore.FilterKeepsAll | src/pages/Receipts.jsx:38 | a test every element passes leaves the list unchanged |
| JsCore.SumOfFilter | src/pages/Campaigns.jsx:76-82 | summing over a filtered list equals summing over the whole list with dropped elements counted as 0 |
| JsCore.SumOfAdd | src/pages/Dashboard.jsx:44-49 | sums over one list add pointwise |
| JsCore.SumOfMonotone | src/pages/Donations.jsx:116-118 | a pointwise larger summand gives a larger sum over an equally long list |
| JsCore.ArraySortPermutes | src/pages/Campaigns.jsx:91-96 | the sort returns a permutation of its input |
| JsCore.ArraySortAllTies | src/pages/Dashboard.jsx:60 | a comparator that ties every pair leaves the order unchanged, because the sort is stable |
| JsCore.ArraySortSortedDesc | src/pages/Dashboard.jsx:60 | a comparator equal to `key(b) - key(a)` sorts the list in descending order of `key` |
| JsCore.LastNToUpper | src/pages/Receipts.jsx:91 | taking the last n characters commutes with upper-casing |
| Records.CampaignKey | src/pages/Campaigns.jsx:72 | `_id \|\| id` is a string or `undefined`, never an object |
| Records.ResolveCampaignIdPrecedence | src/pages/Campaigns.jsx:77 | a populated `_id` wins; a populated object without one is the object itself; then a non-empty raw id; then the `campaign` field |
| Records.PopulatedWithoutIdNeverMatches | src/pages/Campaigns.jsx:77-78 | a populated reference without `_id` never equals any campaign's key |
| Forms.EmailLikeShape | src/pages/Register.jsx:48 | every string the email pattern accepts has an `@`, a `.` and at least five characters |
| Forms.EmailLikeUnanchored | src/pages/Register.jsx:48 | the pattern is unanchored: text around an accepted address is accepted |
| Forms.RequiredError | src/pages/Register.jsx:46 | a message exactly when the value is blank after trimming |
| Forms.EmailError | src/pages/Register.jsx:47-48 | 'Email is required' exactly for a blank address; 'Email is invalid' exactly for a non-blank one the pattern rejects; no message otherwise |
| Forms.PasswordError | src/pages/Register.jsx:50-51 | the required message for an empty password; otherwise a message exactly when it is shorter than 6 |
| Forms.Put | src/pages/Register.jsx:46 | one validation step: the key gets the message if there is one, and every other entry is unchanged |
| Forms.ChangeField | src/pages/Register.jsx:36-42 | only the named field takes the new value; only that field's error entry changes, to '' |
| Forms.LoggedInRedirect | src/pages/Login.jsx:22-26 | a visitor holding a token is sent to /dashboard, and only then |
| Campaigns.VerifiedSumSnoc | src/pages/Campaigns.jsx:76-82 | one more donation adds exactly its amount if it matches the campaign and is verified, else nothing |
| Campaigns.VerifiedSumIsCountedSum | src/pages/Campaigns.jsx:76-82 | the filter-then-reduce total equals the sum of every donation's counted amount |
| Campaigns.VerifiedSumIgnoresUnverified | src/pages/Campaigns.jsx:78 | donations of any status but 'Verified' never change a total |
| Campaigns.VerifiedSumBounds | src/pages/Campaigns.jsx:82 | with non-negative amounts the total lies between 0 and the sum of all amounts |
| Campaigns.MergeSetsOnlyVerifiedAmount | src/pages/Campaigns.jsx:71-88 | each merged campaign carries its verified total and is otherwise the fetched campaign |
| Campaigns.ActiveFirstPartitions | src/pages/Campaigns.jsx:91-96 | the sorted list is the shown-active campaigns in fetch order, then the inactive ones in fetch order |
| Campaigns.ActiveFirstOrders | src/pages/Campaigns.jsx:91-96 | the sort is a permutation and no inactive campaign precedes an active one |
| Campaigns.FailedDonationFetchShowsZero | src/pages/Campaigns.jsx:61-68 | when the donation fetch fails, every listed campaign shows 0 raised |
| Campaigns.CampaignListIsMergedFetch | src/pages/Campaigns.jsx:52-98 | the list holds exactly the fetched campaigns, each merged with the fetched donations |
| Campaigns.CalculateProgress | src/pages/Campaigns.jsx:115-119 | 0 for an absent or zero goal; never above 100; at least 0 for a positive goal and non-negative amount; 100 exactly when the goal is reached; the exact ratio below that |
| Campaigns.GetDisplayValues | src/pages/Campaigns.jsx:122-130 | the merged total wins, then a truthy `totalVerifiedDonations`, then `currentAmount`, then 0 |
| Campaigns.DisplayedIsVerifiedSum | src/pages/Campaigns.jsx:71-88 | every listed campaign shows exactly its verified total; the backend fallbacks are never reached |
| Campaigns.ListedProgress | src/pages/Campaigns.jsx:305-306 | for a positive goal the bar lies in [0, 100], and is full exactly when the verified total reaches the goal |
| Campaigns.ProgressExample | src/pages/Campaigns.jsx:76-82 | goal 1000 with 400 verified, 300 pending and 200 verified shows 600 raised and 60 percent |
| Campaigns.DeadlineDay | src/pages/Campaigns.jsx:309-313 | `new Date(deadline)`: a missing deadline or text that is not a date is an invalid date, `null` is the epoch, a date is its day |
| Campaigns.ExpiryOfOddDeadlines | src/pages/Campaigns.jsx:309-313 | a missing deadline or one that is not a date never expires; a `null` deadline has expired on every day after the epoch |
| Campaigns.DonateLabel | src/pages/Campaigns.jsx:402 | 'Expired' exactly when expired; 'Donate Now' exactly when effectively active; 'Closed' exactly when inactive and not expired |
| Campaigns.CardBadge | src/pages/Campaigns.jsx:323-327 | no badge exactly when effectively active; 'Expired' exactly when expired; 'Inactive' exactly when inactive and not expired |
| Campaigns.Card | src/pages/Campaigns.jsx:301-408 | the id is `_id \|\| id`; the badge and the non-admin caption are `CardBadge` and `DonateLabel`; admins see the raised amount, the progress `calculateProgress` gives for it, and edit/delete; others see only a donate button; a card is greyed exactly when its buttons are disabled, exactly when it is not effectively active |
| Campaigns.NullActiveShownButRefused | src/pages/Campaigns.jsx:140 | `isActive: null` is shown as active, yet the edit, delete and donate handlers refuse it |
| Campaigns.ViewDetailsTarget | src/pages/Campaigns.jsx:278-281 | navigation happens exactly for an effectively active card, to `/campaigns/<id>`, or `/campaigns/undefined` when the id is absent |
| Campaigns.EmptyCampaignForm | src/pages/Campaigns.jsx:34-39 | four fields, all empty |
| Campaigns.CampaignFormErrors | src/pages/Campaigns.jsx:168-185 | each field's error is present exactly under its rule, with the deadline's two messages told apart |
| Campaigns.Validate | src/pages/Campaigns.jsx:168-185 | the step-by-step `newErrors` equals the verdict |
| Campaigns.ValidFormHasNoErrors | src/pages/Campaigns.jsx:168-185 | a filled form with a positive goal and a deadline from today on has no errors |
| Campaigns.FreshDonateForm | src/pages/Campaigns.jsx:40-45 | the donate form's four fields with the amount empty |
| Campaigns.FormattedDeadline | src/pages/Campaigns.jsx:143 | the edit form's deadline: '' for a falsy deadline, the formatted day for a date, and a throw for non-empty text that is not a date |
| Campaigns.NullDeadlineExpiredButBlankInForm | src/pages/Campaigns.jsx:143 | a `null` deadline, which the card shows as expired (lines 309-313), reaches the edit form as '' |
| Campaigns.CampaignsPage.constructor | src/pages/Campaigns.jsx:25-46 | the initial page state |
| Campaigns.CampaignsPage.FetchCampaignsAndDonations | src/pages/Campaigns.jsx:52-105 | the list becomes the merged, sorted fetch (empty when the campaign fetch fails); loading ends; nothing else changes |
| Campaigns.CampaignsPage.HandleOpenCreateModal | src/pages/Campaigns.jsx:132-137 | no campaign is being edited, the form and errors are empty, and the modal is open; the list, the donate form, loading and the delete and donate modals stay |
| Campaigns.CampaignsPage.HandleOpenEditModal | src/pages/Campaigns.jsx:139-153 | a refused campaign changes nothing; otherwise it is being edited and, unless the goal is missing or the deadline is text that is not a date (both throw), the form holds its fields and the modal opens; the other modals and loading stay |
| Campaigns.CampaignsPage.HandleChange | src/pages/Campaigns.jsx:155-161 | the field edit on the campaign form; the modals, selections, list and loading stay |
| Campaigns.CampaignsPage.HandleDonateChange | src/pages/Campaigns.jsx:163-166 | only the named donate field changes, with no error bookkeeping; the modals, selections, list and loading stay |
| Campaigns.CampaignsPage.HandleSubmit | src/pages/Campaigns.jsx:187-218 | errors block the request and are stored; otherwise an update for an edited campaign or else a create; success refetches, closes and resets; failure stores the submit error and keeps the edit modal; the delete and donate modals always stay |
| Campaigns.CampaignsPage.AfterSave | src/pages/Campaigns.jsx:210-217 | success refetches the list, closes the modal and empties the form and the edited campaign; failure stores the submit message and changes nothing else; the donate form and the delete and donate modals always stay |
| Campaigns.CampaignsPage.HandleDelete | src/pages/Campaigns.jsx:220-224 | a refused campaign changes nothing; otherwise it is staged and the confirm modal opens; the edit and donate modals, forms and loading stay |
| Campaigns.CampaignsPage.ConfirmDelete | src/pages/Campaigns.jsx:226-237 | nothing without a staged campaign; otherwise its `_id \|\| id` is deleted, and success refetches and closes; the edit and donate modals and the forms stay |
| Campaigns.CampaignsPage.HandleDonate | src/pages/Campaigns.jsx:239-250 | a refused campaign changes nothing; otherwise it is selected and the donate form is reset; the edit and delete modals and loading stay |
| Campaigns.CampaignsPage.HandleDonateSubmit | src/pages/Campaigns.jsx:252-276 | nothing without a selection; otherwise the donation sent carries the campaign's id and the form's fields; success closes and refetches; the edit and delete modals and the forms stay |
| CampaignDetails.CampaignOf | src/pages/CampaignDetails.jsx:27 | `data.campaign \|\| data` |
| CampaignDetails.RaisedAmount | src/pages/CampaignDetails.jsx:35-53 | `currentAmount \|\| 0`, replaced for an admin whose donation fetch succeeds by the verified sum for the route's id |
| CampaignDetails.AdminRaisedAgreesWithList | src/pages/CampaignDetails.jsx:43-49 | for the id the list links to, the details page shows an admin the amount the list shows |
| CampaignDetails.RouteIdIsWhatCounts | src/pages/CampaignDetails.jsx:45 | reached under `id` while `_id` differs, donations naming the `_id` are not counted |
| CampaignDetails.Round | src/pages/CampaignDetails.jsx:151 | `Math.round`: the nearest integer, halves up |
| CampaignDetails.Details | src/pages/CampaignDetails.jsx:103-157 | the badge and dimming follow effective activity and expiry; only admins see the amount and the percentage, which is `Math.round` of `calculateProgress` of that amount, at most 100, and 0 for a zero goal |
| CampaignDetails.Render | src/pages/CampaignDetails.jsx:84-101 | loading first, then the error or 'Campaign not found', then the details |
| CampaignDetails.CampaignDetailsPage.constructor | src/pages/CampaignDetails.jsx:16-19 | the initial page state |
| CampaignDetails.CampaignDetailsPage.FetchData | src/pages/CampaignDetails.jsx:21-68 | nothing for an empty id; a failed campaign fetch sets the error; otherwise the campaign and raised amount are stored |
| CampaignDetails.FailedFirstVisitShowsError | src/pages/CampaignDetails.jsx:57-62 | a first visit whose campaign fetch fails renders the error message |
| Dashboard.ComputeStats | src/pages/Dashboard.jsx:35-49 | the `forEach` accumulation equals the three sums |
| Dashboard.StatsPartition | src/pages/Dashboard.jsx:44-49 | the total is verified plus pending plus every other status |
| Dashboard.StatsBounded | src/pages/Dashboard.jsx:44-49 | with non-negative amounts, verified and pending are non-negative and together at most the total |
| Dashboard.RecentDrawnFromFetched | src/pages/Dashboard.jsx:60-61 | at most five donations, all fetched ones, and five whenever five were fetched |
| Dashboard.RecentNewestFirst | src/pages/Dashboard.jsx:60-61 | when every donation has `createdAt`, the written comparator lists newest first |
| Dashboard.RecentWithoutCreatedAtKeepsFetchOrder | src/pages/Dashboard.jsx:60 | as written, without `createdAt` every pair ties and the fetch order is kept |
| Dashboard.RecentOrderAsWrittenCounterexample | src/pages/Dashboard.jsx:60 | donations dated 1 and 5, fetched oldest first, stay oldest first |
| Dashboard.IntendedRecentNewestFirst | src/pages/Dashboard.jsx:60-61 | the corrected comparator lists newest first by each donation's own timestamp |
| Dashboard.IntendedAgreesWhenCreatedAtPresent | src/pages/Dashboard.jsx:60 | the two comparators sort identically when every donation has `createdAt` |
| Dashboard.TableHeaders | src/pages/Dashboard.jsx:80-84 | four headers, with 'Donor Name' spliced in at position 1 for admins |
| Dashboard.DonationRow | src/pages/Dashboard.jsx:96-101 | admins see the donor, falling back to 'Anonymous'; the campaign falls back to 'General' |
| Dashboard.DashboardPage.constructor | src/pages/Dashboard.jsx:13-20 | zero stats, no recent donations, loading |
| Dashboard.DashboardPage.FetchData | src/pages/Dashboard.jsx:22-71 | the role picks the request; success sets the totals and the recent list sorted with the comparator as written; failure keeps both; loading ends |
| Donations.ApplyFilters | src/pages/Donations.jsx:32-56 | the chain of conditional passes equals one filter by every test in force |
| Donations.FilteredIsSubsequence | src/pages/Donations.jsx:32-56 | the listed donations are exactly those that pass, in fetch order |
| Donations.NoFiltersListAll | src/pages/Donations.jsx:32-56 | with no filter set every donation is listed |
| Donations.NonAdminOnlyStatusFilters | src/pages/Donations.jsx:35-53 | for a non-admin only the status filter has an effect |
| Donations.SearchIgnoresCase | src/pages/Donations.jsx:37-38 | the search term's case does not matter |
| Donations.MarkVerified | src/pages/Donations.jsx:116-118 | matching donations become 'Verified' and the rest stay as they were |
| Donations.MarkVerifiedIdempotent | src/pages/Donations.jsx:116-118 | verifying the same id twice changes nothing more |
| Donations.MarkedPassVerifiedFilter | src/pages/Donations.jsx:116-118 | a patched donation passes a 'Verified' status filter |
| Donations.MarkVerifiedRaisesVerifiedTotals | src/pages/Donations.jsx:116-118 | verifying never lowers any campaign's verified total |
| Donations.MarkVerifiedKeepsTotal | src/pages/Donations.jsx:116-118 | verifying leaves the overall total unchanged |
| Donations.TableHeaders | src/pages/Donations.jsx:108-110 | eight headers for admins, six without donor and action for others |
| Donations.ActionFor | src/pages/Donations.jsx:182-198 | a Verify button exactly for 'Pending', targeting `_id \|\| id`; a Verified tag exactly for 'Verified' |
| Donations.DonationRow | src/pages/Donations.jsx:138-180 | admin-only donor, email and action cells, with the 'Anonymous' donor fallback and the donor's email; the campaign, type and payment fallbacks without defaults |
| Donations.DonationsPage.constructor | src/pages/Donations.jsx:17-25 | the initial page state |
| Donations.DonationsPage.FetchDonations | src/pages/Donations.jsx:58-77 | the role picks the request; success sets both lists; failure sets the error |
| Donations.DonationsPage.FilterEffect | src/pages/Donations.jsx:32-56 | the shown list becomes the filtered donations; the donations, filters, loading and error stay |
| Donations.DonationsPage.SetFilters | src/pages/Donations.jsx:215-251 | the filter inputs change; the lists, loading and the error stay |
| Donations.DonationsPage.ClearFilters | src/pages/Donations.jsx:260-265 | all four filters are reset to empty; the lists, loading and the error stay |
| Donations.DonationsPage.HandleVerify | src/pages/Donations.jsx:112-124 | after a successful update the donations are patched; failure changes nothing; the shown list, filters, loading and error stay |
| Receipts.RequestFor | src/pages/Receipts.jsx:27-33 | admins ask for every donation with a 'Verified' query; users ask for their own |
| Receipts.ReceiptsAreVerifiedInOrder | src/pages/Receipts.jsx:35-43 | the receipts are exactly the fetched verified donations in order; a failed first fetch leaves none |
| Receipts.AllVerifiedPassThrough | src/pages/Receipts.jsx:38 | an all-verified response passes through whole |
| Receipts.ReceiptNumber | src/pages/Receipts.jsx:91 | '#' followed by the last 8 characters of the id, upper-cased |
| Receipts.PdfFilename | src/pages/Receipts.jsx:133 | 'receipt-', the last 6 characters of the id, '.pdf' |
| Receipts.FilenameMatchesReceiptNumber | src/pages/Receipts.jsx:133 | the file name's id part, upper-cased, ends the receipt number printed at line 91 |
| Receipts.ReceiptOf | src/pages/Receipts.jsx:56-63 | a receipt exactly when the donation has an id, with the donor, campaign and payment fallbacks |
| Receipts.PdfFilenameOf | src/pages/Receipts.jsx:125-133 | a file name exactly when there is a receipt |
| Receipts.ReceiptRow | src/pages/Receipts.jsx:159-171 | admin-only donor, the 'General' campaign fallback, and a payment cell without default |
| Receipts.RowAgreesWithReceipt | src/pages/Receipts.jsx:159-160 | the row and the receipt (lines 61-62) show the same donor, and the same campaign except the fallback's wording |
| Receipts.TableHeaders | src/pages/Receipts.jsx:146-148 | seven headers for admins, six without 'Donor' for others |
| AuthStore.AdminIsTwoExactSpellings | src/store/authStore.js:20-23 | only 'admin' and 'Admin' are admins; 'ADMIN' is not, though it lower-cases to 'admin' |
| AuthStore.AuthStore.constructor | src/store/authStore.js:7-31 | the session is rehydrated from storage, else token and user start null |
| AuthStore.AuthStore.IsAdmin | src/store/authStore.js:20-23 | a pure read: the role is exactly one of the two spellings |
| AuthStore.AuthStore.IsAuthenticated | src/store/authStore.js:25-27 | a pure read: the token is present and non-empty |
| AuthStore.AuthStore.Login | src/store/authStore.js:10-12 | token and user become the arguments from any state, and are persisted |
| AuthStore.AuthStore.Logout | src/store/authStore.js:14-18 | token and user become null, storage is cleared, and neither query holds afterwards |
| AuthStore.ReloadAfterLogout | src/store/authStore.js:14-30 | a reload after logout starts unauthenticated |
| ThemeStore.Toggled | src/store/themeStore.js:9-13 | 'light' becomes 'dark' and every other value 'light' |
| ThemeStore.ToggleTwice | src/store/themeStore.js:9-13 | toggling twice restores 'light' or 'dark'; any other value ends as 'dark' |
| ThemeStore.ThemeStore.constructor | src/store/themeStore.js:7-21 | 'light' on a first visit, else the stored theme |
| ThemeStore.ThemeStore.ToggleTheme | src/store/themeStore.js:9-13 | the theme is toggled and persisted |
| ThemeStore.ThemeStore.SetTheme | src/store/themeStore.js:15-17 | the theme becomes exactly the argument |
| ProtectedRoute.Guard | src/components/ProtectedRoute.jsx:5-17 | no token goes to /login; token, admin-only and non-admin goes to /dashboard; the page renders exactly with a token and (not admin-only or admin) |
| ProtectedRoute.DefaultAdmitsEveryTokenHolder | src/components/ProtectedRoute.jsx:5-17 | without the flag every token holder sees the page |
| ProtectedRoute.GuardFor | src/components/ProtectedRoute.jsx:6-17 | the gate renders exactly for an authenticated session that is admin where required |
| ProtectedRoute.GuardAfterLogout | src/components/ProtectedRoute.jsx:9-11 | after logout every protected page redirects to /login |
| Navbar.PageTitle | src/layout/Navbar.jsx:14-21 | the four known paths get their titles and every other path 'Dashboard' |
| Navbar.UserInitials | src/layout/Navbar.jsx:28-33 | 'U' without a name; otherwise the upper-cased word starts, at most two characters |
| Navbar.SpacesOnlyNameHasNoInitials | src/layout/Navbar.jsx:29-31 | a name made of spaces yields '' rather than 'U' |
| Navbar.OneWordInitial | src/layout/Navbar.jsx:30 | a one-word name yields its first character |
| Navbar.HandleLogout | src/layout/Navbar.jsx:23-26 | the session is cleared before navigating to /login |
| Register.EmptyRegisterForm | src/pages/Register.jsx:14-20 | five empty fields |
| Register.RoleOptionsAreUserAndAdmin | src/pages/Register.jsx:31-34 | only 'user' and 'admin' are offered, and only 'admin' makes an admin |
| Register.RegisterErrors | src/pages/Register.jsx:44-54 | each field's error is present exactly under its rule, with its message |
| Register.EmailGetsOneMessage | src/pages/Register.jsx:47-48 | a failing email gets exactly one of the two messages |
| Register.CompleteFormHasNoErrors | src/pages/Register.jsx:44-54 | a complete form with a six-character password passes |
| Register.Validate | src/pages/Register.jsx:44-54 | the step-by-step `newErrors` equals the verdict |
| Register.RegisterPage.constructor | src/pages/Register.jsx:14-22 | empty form, no errors, not loading |
| Register.RegisterPage.HandleChange | src/pages/Register.jsx:36-42 | the field edit |
| Register.RegisterPage.HandleSubmit | src/pages/Register.jsx:56-81 | errors block the post and are stored; success logs in with the returned token and user and goes to /dashboard; failure stores the submit message |
| Login.EmptyLoginForm | src/pages/Login.jsx:14-17 | two empty fields |
| Login.LoginErrors | src/pages/Login.jsx:36-42 | the email rule, and a password error exactly when it is empty |
| Login.ShortPasswordPassesLogin | src/pages/Login.jsx:40 | login applies no length rule |
| Login.Validate | src/pages/Login.jsx:36-42 | the step-by-step `newErrors` equals the verdict |
| Login.LoginPage.constructor | src/pages/Login.jsx:14-19 | empty form, no errors, not loading |
| Login.LoginPage.HandleChange | src/pages/Login.jsx:28-34 | the field edit |
| Login.LoginPage.HandleSubmit | src/pages/Login.jsx:44-75 | errors block the post; the session changes, and the page leaves for /dashboard, exactly for a returned user who is verified; a reply without a user gives the default message |
| ResetPassword.EmptyResetForm | src/pages/ResetPassword.jsx:14-17 | two empty fields |
| ResetPassword.ResetErrors | src/pages/ResetPassword.jsx:29-41 | the password rule, and independently a mismatch error exactly when the two differ |
| ResetPassword.EmptyFormOnlyNeedsPassword | src/pages/ResetPassword.jsx:29-41 | two empty fields give only 'Password is required' |
| ResetPassword.ConfirmedPasswordHasNoErrors | src/pages/ResetPassword.jsx:29-41 | a confirmed password of at least six characters passes |
| ResetPassword.Validate | src/pages/ResetPassword.jsx:29-41 | the step-by-step `newErrors` equals the verdict |
| ResetPassword.ResetPasswordPage.constructor | src/pages/ResetPassword.jsx:14-19 | empty form, no errors, not loading |
| ResetPassword.ResetPasswordPage.HandleChange | src/pages/ResetPassword.jsx:21-27 | the field edit |
| ResetPassword.ResetPasswordPage.HandleSubmit | src/pages/ResetPassword.jsx:43-67 | errors block the post; the path carries the link's token; status 200 goes to /login; old errors are not cleared |
| Profile.FormFor | src/pages/Profile.jsx:31-38 | the user's details with '' defaults and three empty password fields |
| Profile.EmptyProfileForm | src/pages/Profile.jsx:12-19 | six empty fields |
| Profile.FilledForm | src/pages/Profile.jsx:25-69 | the fetched profile if any, else the store's user, else the form as it was |
| Profile.FillNeverCarriesPasswords | src/pages/Profile.jsx:29-62 | the fill never puts anything in the password fields |
| Profile.ProfileErrors | src/pages/Profile.jsx:79-86 | name and phone blank, and the email rule, each with its message |
| Profile.PasswordFormErrors | src/pages/Profile.jsx:88-97 | empty current password, the new-password rule, and independently a mismatch |
| Profile.ValidatorsAreIndependent | src/pages/Profile.jsx:79-97 | editing a password field never changes the profile verdict, and vice versa |
| Profile.ValidateProfile | src/pages/Profile.jsx:79-86 | the step-by-step `newErrors` equals the verdict |
| Profile.ValidatePassword | src/pages/Profile.jsx:88-97 | the step-by-step `newErrors` equals the verdict |
| Profile.ClearPasswords | src/pages/Profile.jsx:146-151 | exactly the three password fields are emptied |
| Profile.UserOf | src/pages/Profile.jsx:119 | `response.data.user \|\| response.data` |
| Profile.ProfilePage.constructor | src/pages/Profile.jsx:12-23 | empty form, no errors, loading, not saving |
| Profile.ProfilePage.FetchProfile | src/pages/Profile.jsx:25-69 | the form becomes the fill and loading ends |
| Profile.ProfilePage.HandleChange | src/pages/Profile.jsx:71-77 | the field edit |
| Profile.ProfilePage.HandleProfileSubmit | src/pages/Profile.jsx:99-128 | errors block the update; success keeps the token and stores the returned user; failure stores the submit message |
| Profile.ProfilePage.HandlePasswordSubmit | src/pages/Profile.jsx:130-159 | errors block the change; success empties exactly the password fields; failure stores the submit message |

## Left out

- The HTTP layer (base URL, bearer header, the 401 interceptor) is not part of this model. Each request's outcome is a parameter, and the interceptor's logout is `AuthStore.AuthStore.Logout`.
- Rendering, styling, dark-mode classes, toasts, console output, modals' markup: no logic beyond what is modelled.
- The forgot-password and email-verification pages are not part of this model.
- Number and date formatting (`Intl.NumberFormat`, `toLocaleString`, `toISOString`) are left out because they are locale-dependent. The edit modal takes them as functions.
- Amounts are real numbers, not IEEE doubles: rounding and `NaN` are not modelled. `parseFloat` is a parameter returning nothing for `NaN`. An amount sent as a string would be concatenated by the list page's `reduce`; it is not modelled.
- Dates are day numbers. A campaign's deadline keeps the four cases the code tells apart: missing, `null` (the epoch, day 0), text that is not a date, and a date. Time zones and the `setHours` normalisation are not modelled.
- `null` and `undefined` are merged wherever the source does not tell them apart. `isActive` keeps three cases: missing, null, boolean.
- Case mapping is ASCII only. Whitespace for `trim` and `\S` is the ECMAScript WhiteSpace and LineTerminator set. Strings are sequences of characters, not UTF-16 code units.
- `Array.prototype.sort` is a stable insertion sort. For an inconsistent comparator (the recent list with missing timestamps), an engine may order differently.
- Concurrency: stale responses and interleaved requests are not modelled. Each handler runs to completion with its outcomes given.
- Printing and PDF generation (`window.open`, `html2pdf`) are not modelled. Only the receipt fields and the file name are.
- The persistence middleware's JSON format and versioning are not modelled. Storage holds the session or theme value itself.
- The `replace` flag of navigations and the `[token]` redirect effects are not modelled as history operations. Each is a destination.
- Campaigns.CampaignsPage.HandleOpenEditModal: a campaign without a goal, or with a deadline that is not a date, throws after `editingCampaign` is set. The model stops there and does not model the uncaught error.
- Donations.DonationsPage.FilterEffect is a method the page calls explicitly. React's effect scheduling is not modelled.

## Findings

| source | as written | input that shows it | evidently intended | confidence | as-written member | corrected member |
|---|---|---|---|---|---|---|
| src/pages/Dashboard.jsx:60 | `new Date(b.createdAt \|\| b.date) - new Date(a.createdAt \|\| b.date)`: the left side falls back to `b.date` | two donations without `createdAt`, dated 1 and 5, fetched oldest first: every pair compares `b.date` with itself, so the "recent" list stays oldest first | each side falls back to its own `date`, so the list is newest first | high; not executed | Dashboard.RecentOrderAsWrittenCounterexample | Dashboard.IntendedRecentDonations |

The as-written comparator is `Dashboard.RecentOrder`. `Dashboard.RecentWithoutCreatedAtKeepsFetchOrder` proves the general case. `Dashboard.IntendedRecentNewestFirst` proves the corrected list newest first. `Dashboard.IntendedAgreesWhenCreatedAtPresent` shows the two agree whenever every donation has `createdAt`. `Dashboard.DashboardPage.FetchData` models the page as written.

## Behaviour of the code worth knowing

- The role test is case-sensitive: only 'admin' and 'Admin' are admins, and 'ADMIN' is not (`AuthStore.AdminIsTwoExactSpellings`).
- Without `createdAt` the recent list on the dashboard is not newest first (the finding above).
- The list page sums `amount || 0`, while the details page and the dashboard use `parseFloat(amount) || 0`. With numeric amounts the two agree, and the model treats amounts as numbers.
- A `null` deadline shows as expired, while the edit form receives it as an empty deadline (`Campaigns.NullDeadlineExpiredButBlankInForm`).
