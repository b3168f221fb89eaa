# HUMSAFAR complaint app — a Dafny model of its core

HUMSAFAR is a civic-complaint web app built with Next.js. Citizens describe
a problem in a three-step wizard, give a location and confirm. An analysis
backend classifies the complaint. The app then records it in a client-side
store, writes a short history and shows a result page. An admin dashboard
behind a login lists, filters and updates the complaints.

This project models the logic of that core as pure Dafny functions over
immutable data and proves properties of it:

- **`Store`** (`contexts/realtime-context.tsx`): the complaint and
  notification store. Covers the near-duplicate check, status updates and
  the notifications they raise, look-ups, read marks, the one-week cleanup,
  duplicate removal and the counts.
- **`ComplaintForm`** (`app/complaint/page.tsx`): the wizard, location
  suggestions, coordinate regions, reverse-geocoded address formatting, and
  what happens once the backend has answered.
- **`SubmitApi`** (`app/api/submit/route.ts`): the `POST /api/submit`
  handler.
- **`ComplaintHistory`** (`components/complaint-history.tsx`): the stored
  history and the "Recent Complaints" card.
- **`Dashboard`** (`app/dashboard/page.tsx`): sample plus stored entries,
  status counts, success rate, impact score and rejection reasons.
- **`AdminPanel`** (`app/admin/page.tsx`): the filters, status buttons,
  badge colours and the urgent card.
- **`MyComplaints`** (`app/my-complaints/page.tsx`): filters, CSV export and
  the filter banner.
- **`AdminLogin`** and **`AdminGuard`** (`app/admin/login/page.tsx`,
  `components/admin-guard.tsx`): the credential check and the 24-hour
  session.
- **Components**: `Toasts`, `ImpactEstimation`, `SmartSuggestions`,
  `NotificationPanel`, `Walkthrough`, `ProgressStepper` and `AiProcessing`
  model the component files of the same names.
- **Shared modules**:
  - `Text` gives the JavaScript string operations the source relies on:
    `toLowerCase` and `toUpperCase` on ASCII, `includes`, `trim`,
    `substring` and `slice` with their clamping, `join`, `Number.toString`
    and `Number.parseInt`, where NaN is `None`.
  - `Seqs` gives an order-preserving `Filter` with its count and multiset
    characterisation.
  - `Keywords` is the "first keyword group that matches" decision table
    that two components share.

Inputs the code reads from the world are explicit parameters:

- the clock (`now`, in milliseconds);
- `Math.random()` (a real in [0, 1), or the random base-36 string);
- browser storage (a map from key to text, or the parsed history);
- the analysis backend's reply.

Timers become explicit events. In `AiProcessing`, `Fire` is the pending
timer going off.

The model keeps the code's behaviour where it looks unintended:

- A history that does not parse makes the complaint page fail *after* the
  complaint has been added to the store. The user then sees the failure
  toast, but the complaint is in the store.
- The notification icon lookup knows the types `resolved`, `urgent` and
  `admin_response`. None of them is a type the store creates, so every
  stored notification gets the default icon.
- The history card appends "..." to every location, even a short one.

## Model

| member | source | states |
|---|---|---|
| Store.AddComplaint | contexts/realtime-context.tsx:103-143 | A complaint resembling a stored one (same title and description up to case, same email, under a minute apart) leaves the store unchanged. Otherwise the complaint goes first, and exactly one unread "general" notification naming its reference id goes first among the notifications. |
| Store.DuplicateWindow | contexts/realtime-context.tsx:105-111 | Against a stored complaint with the same title and description up to case and the same email, a submission is a duplicate exactly when the two timestamps lie strictly less than 60 000 ms apart, whichever is earlier. |
| Store.AddComplaintTwice | contexts/realtime-context.tsx:105-119 | Adding the same complaint record a second time, whatever the clock then reads, is suppressed. |
| Store.AddNotificationRaisesUnread | contexts/realtime-context.tsx:196-218 | A new notification raises the unread count by exactly one, and "mark all read" afterwards leaves none unread. |
| Store.SetStatus | contexts/realtime-context.tsx:145-176 | Every complaint answering to the id by internal or reference id gets the new status. All other complaints are untouched, and the order is kept. |
| Store.StatusNotices | contexts/realtime-context.tsx:148-170 | There is one unread status-update notification per matched complaint, each recording the new status. |
| Store.UpdateComplaintStatus | contexts/realtime-context.tsx:145-176 | Only the status field of matching complaints changes. The notification list grows by the number of matches, and the old notifications stay at its end. |
| Store.StatusNoticesReverseMatches | contexts/realtime-context.tsx:148-170 | The added notifications correspond one to one, in reverse order, to the matched complaints. Each records its complaint's previous status. |
| Store.SetStatusIdempotent | contexts/realtime-context.tsx:145-176 | Setting the same status twice is the same as setting it once. |
| Store.UpdateUnknownId | contexts/realtime-context.tsx:145-176 | An id no complaint answers to changes neither list. |
| Store.GetComplaintById | contexts/realtime-context.tsx:178-183 | The result is the first complaint answering to the id, or none exactly when no complaint does. |
| Store.ByDepartment | contexts/realtime-context.tsx:185-190 | The result is an order-preserving selection holding exactly the complaints whose department equals the given one up to case, with their multiplicities. |
| Store.Urgent | contexts/realtime-context.tsx:192-194 | The result is an order-preserving selection holding exactly the unresolved high-urgency complaints. |
| Store.MarkRead | contexts/realtime-context.tsx:206-210 | The notifications with the id become read. Nothing else changes. |
| Store.MarkAllRead | contexts/realtime-context.tsx:212-214 | Every notification becomes read, and nothing else about them changes. |
| Store.NoneUnread | contexts/realtime-context.tsx:216-218 | The unread count is zero exactly when every notification is read. |
| Store.UnreadCount | contexts/realtime-context.tsx:216-218 | The result is the number of unread notifications. It is zero iff all are read. |
| Store.MarkAllReadSettles | contexts/realtime-context.tsx:212-218 | Marking all read is idempotent and leaves no unread notification. |
| Store.MarkReadLowersUnread | contexts/realtime-context.tsx:206-218 | Marking one notification read never raises the unread count. |
| Store.ClearOld | contexts/realtime-context.tsx:220-225 | The result is an order-preserving selection holding exactly the notifications stamped after the cutoff. |
| Store.ClearOldIdempotent | contexts/realtime-context.tsx:220-225 | Cleaning up twice with the same cutoff is cleaning up once. |
| Store.KeySpellsOut | contexts/realtime-context.tsx:231 | The key is the title, "-", the email, "-" and then the description's first fifty characters, or the whole description when it is shorter. |
| Store.DedupFrom | contexts/realtime-context.tsx:229-237 | With some keys already seen, the result keeps an order-preserving selection with pairwise distinct unseen keys. Its key set is the input's minus the seen ones. |
| Store.RemoveDuplicates | contexts/realtime-context.tsx:227-239 | The result is an order-preserving selection with pairwise distinct keys, and it keeps every key of the input. |
| Store.DedupDistinct | contexts/realtime-context.tsx:227-239 | A list whose keys are distinct and unseen passes unchanged. |
| Store.RemoveDuplicatesIdempotent | contexts/realtime-context.tsx:227-239 | Removing duplicates twice is removing them once. |
| Store.RemoveDuplicatesSnoc | contexts/realtime-context.tsx:227-239 | A complaint appended at the end survives iff its key is new, so the first occurrence of every key is the one kept. |
| Store.DescriptionTailIgnored | contexts/realtime-context.tsx:229-236 | Two complaints with the same title and email whose descriptions share their first fifty characters count as one: the clean-up keeps only the first, whatever the rest of the descriptions says. |
| Store.StatusCountsBound | contexts/realtime-context.tsx:241-246 | The three status counts sum to at most the number of complaints. They sum to exactly that number when every status is one of the three. |
| Store.ComputeStats | contexts/realtime-context.tsx:241-246 | The total and the number of complaints with each of the three statuses, whose sum never exceeds the total. |
| ComplaintForm.HandleNext | app/complaint/page.tsx:280-290 | On step 1 a blank complaint, or on step 2 an empty location, keeps the step and raises the "fill all fields" toast. Otherwise the step advances by one. |
| ComplaintForm.HandleBack | app/complaint/page.tsx:292-294 | Back lowers the step by one and keeps the form. |
| ComplaintForm.HandleSubmit | app/complaint/page.tsx:296-304 | Processing starts iff the complaint is not blank and a location is given. Otherwise only the error toast appears. |
| ComplaintForm.DispatchKeepsReachable | app/complaint/page.tsx:280-294 | Every user action keeps the wizard on one of its three steps. Past step 1 the complaint is not blank, and on the preview a location is present. |
| ComplaintForm.RunStaysReachable | app/complaint/page.tsx:280-304 | Whatever sequence of actions the user performs, the wizard stays in a reachable state. Confirming on the preview therefore always starts processing. |
| ComplaintForm.Suggest | app/complaint/page.tsx:128 | The suggestions are the candidates containing the typed text without regard to case, in their order; each such candidate appears as often as among the candidates and no other appears. |
| ComplaintForm.OnLocationChange | app/complaint/page.tsx:123-133 | Non-empty input shows the matching popular locations. Clearing the field hides the suggestions and keeps the last list. The field always holds the input. |
| ComplaintForm.SuggestIgnoresCase | app/complaint/page.tsx:128 | Input that differs only in case yields the same suggestions. |
| ComplaintForm.SuggestEverythingForEmpty | app/complaint/page.tsx:128 | The empty search text would match every candidate. |
| ComplaintForm.RegionOf | app/complaint/page.tsx:141-148 | A named region is returned only for a point inside its box. "default" is returned exactly for points in no box. |
| ComplaintForm.RegionBoxesDisjoint | app/complaint/page.tsx:141-148 | No point lies in two boxes, so a point in a region's box always gets that region whatever the test order. |
| ComplaintForm.MockAddress | app/complaint/page.tsx:150-154 | The mock address is always one of the addresses of the point's region. |
| ComplaintForm.StripTrailingComma | app/complaint/page.tsx:200 | The text changes iff it has a comma followed only by whitespace, and then exactly that comma and the whitespace are removed. |
| ComplaintForm.FormatAddress | app/complaint/page.tsx:190-200 | The shown address differs from the assembled parts exactly when they contain a comma followed only by whitespace, and then that comma and its blank tail are all that is removed. |
| ComplaintForm.FormatAddressWithoutPostcode | app/complaint/page.tsx:190-200 | Without a postcode, the assembled address loses exactly its final ", ". |
| ComplaintForm.FormatAddressWithPostcode | app/complaint/page.tsx:190-200 | A postcode ending in an ordinary character leaves the assembled address as it is. |
| ComplaintForm.ReferenceIdFor | app/complaint/page.tsx:338 | The backend's reference id when given. Otherwise the upper-cased first three letters of the department, a dash and the clock reading. |
| ComplaintForm.BuildComplaint | app/complaint/page.tsx:341-362 | The stored complaint takes its summary, department and urgency from the backend and its text and location from the form. It is named "Anonymous" when no name was given, and its status is "New". |
| ComplaintForm.PushHistory | app/complaint/page.tsx:377-379 | The new history entry comes first, then the older entries in order, at most ten in all. |
| ComplaintForm.FailureToast | app/complaint/page.tsx:404-416 | A network failure (message mentioning "fetch") asks to start the backend. Any other error message is shown after the failure prefix. |
| ComplaintForm.ProcessingComplete | app/complaint/page.tsx:306-422 | The result page opens iff the backend answered with all four fields and the stored history could be read. The store gains the complaint iff the answer was acceptable. The history written is the new entry plus the old ones, at most ten. On failure, processing and submitting are switched off and no history is written. |
| SubmitApi.FirstMissing | app/api/submit/route.ts:8-13 | The first field whose value is falsy in the JavaScript sense, or none exactly when all are truthy. |
| SubmitApi.ResolutionTime | app/api/submit/route.ts:36-37 | "24-48 hours" exactly for "High", "3-5 days" exactly for "Medium", "1-2 weeks" for everything else. |
| SubmitApi.SimilarComplaints | app/api/submit/route.ts:38 | The similar-complaint count lies between 1 and 10. |
| SubmitApi.ReferenceId | app/api/submit/route.ts:16 | The reference id starts with "HMS" followed by the last (up to six) digits of the clock. |
| SubmitApi.ReferenceIdDigits | app/api/submit/route.ts:16 | From a six-digit clock reading on, exactly the clock's last six digits follow the prefix. |
| SubmitApi.BuildComplaint | app/api/submit/route.ts:16-40 | The complaint copies the eight body fields, carries the reference id of the clock and random draw, an id beginning with "complaint_" and the clock reading, the request's ISO time and status "Pending"; its analysis mirrors department and urgency, names the urgency's resolution time and counts 1 to 10 similar complaints. |
| SubmitApi.Post | app/api/submit/route.ts:3-56 | 500 exactly when the body cannot be read or is null. 400 names the first missing required field. 200 exactly when all eight fields are present, with the fields copied, status "Pending", the analysis mirroring department and urgency and giving the urgency's resolution time, and the reference id built from the clock and random draw, returned both in the complaint and beside it. |
| ComplaintHistory.LoadHistory | components/complaint-history.tsx:24-33 | Stored entries load as they are. Absent or unparsable history loads as the empty list. JSON that is not an array is kept as it is, so the history holds no list. |
| ComplaintHistory.Mount | components/complaint-history.tsx:24-71 | Rendering fails exactly when the stored history is JSON that is not an array (taken to have a non-zero length). Stored entries render as the card for them; absent or unparsable history renders nothing. |
| ComplaintHistory.Render | components/complaint-history.tsx:54-114 | Nothing is rendered for an empty history. Otherwise the first three entries are listed, with the "view all" link iff there are more than three. |
| ComplaintHistory.LocationLabel | components/complaint-history.tsx:82 | The location label is the first thirty characters followed by "...", even for a shorter location. |
| ComplaintHistory.StatusColor | components/complaint-history.tsx:41-52 | Each of "Resolved", "Processing" and "Sent" has its colour. Gray is used exactly for other statuses. |
| Dashboard.AllComplaints | app/dashboard/page.tsx:85-90 | The five samples, then the stored history in order. There is no list exactly when the stored text does not parse. |
| Dashboard.StatusCountsBound | app/dashboard/page.tsx:93-99 | The four status counts sum to at most the number of entries, and exactly to it when every status is a declared one. |
| Dashboard.ComputeStats | app/dashboard/page.tsx:93-99 | The total and the number of entries per status, whose sum equals the total when all statuses are declared ones. |
| Dashboard.EmptyStorageStats | app/dashboard/page.tsx:23-99 | With nothing stored the dashboard counts 5 entries: 1 resolved, 1 processing, 1 sent and 2 rejected. |
| Dashboard.SampleCounts | app/dashboard/page.tsx:23-73 | The samples hold one resolved, one processing, one sent and two rejected entries. |
| Dashboard.StatsAfterSamples | app/dashboard/page.tsx:88-99 | Every count over samples plus stored entries is the samples' count plus the stored entries' own. |
| Dashboard.SuccessRate | app/dashboard/page.tsx:205 | 0 for an empty list. Otherwise the integer nearest to the accepted percentage, with halves rounded up, and at most 100 for counts from one list. |
| Dashboard.ImpactScore | app/dashboard/page.tsx:212 | 100 points per resolved and 50 per processing entry: a multiple of 50, at most 100 per entry. |
| Dashboard.RejectionBox | app/dashboard/page.tsx:262 | The box is shown, with its reason, iff the entry is rejected and has a non-empty reason. |
| Dashboard.HistoryNeverRejectionBox | app/dashboard/page.tsx:262 | Entries from the stored history never show a rejection box. |
| AdminPanel.FilteredComplaints | app/admin/page.tsx:53-62 | An order-preserving selection holding exactly the complaints that satisfy the department, the case-insensitive search over title, description and name, and the status. |
| AdminPanel.FilterDefaultsShowAll | app/admin/page.tsx:53-62 | With "all", an empty search and "all", every complaint is listed. |
| AdminPanel.SearchIgnoresCase | app/admin/page.tsx:55-57 | Search terms that differ only in case list the same complaints. |
| AdminPanel.SearchUpperCase | app/admin/page.tsx:55-57 | An upper-cased search term lists the same complaints. |
| AdminPanel.ActionsFor | app/admin/page.tsx:297-310 | "Mark In Progress" is offered iff the complaint is not in progress. "Mark Resolved" is offered iff it is not resolved. At least one is always offered. |
| AdminPanel.ClickRetiresButton | app/admin/page.tsx:297-310 | After pressing a row's button, that row has the chosen status and no longer offers the same button. |
| AdminPanel.StatusColor | app/admin/page.tsx:66-77 | Each of "Resolved", "In Progress" and "New" has its own colour. Gray is used exactly for unknown statuses. |
| AdminPanel.UrgencyColor | app/admin/page.tsx:79-90 | Each of "High", "Medium" and "Low" has its own colour. Gray is used exactly for unknown urgencies. |
| AdminPanel.UrgentPanel | app/admin/page.tsx:173-186 | There is no card exactly when nothing is urgent. Otherwise the card announces the number of urgent complaints and lists the first three of them. |
| AdminPanel.FormComplaintShowsReferenceId | app/admin/page.tsx:285 | A complaint stored by the complaint form always has a non-empty reference id, so its row shows that id, never the internal one. |
| MyComplaints.FilteredComplaints | app/my-complaints/page.tsx:18-27 | An order-preserving selection holding exactly the rows whose summary, reference id or location contains the term ignoring case, and whose status matches ignoring case. |
| MyComplaints.FilterDefaultsShowAll | app/my-complaints/page.tsx:18-27 | An empty term with "all" lists every row. |
| MyComplaints.FilterIgnoresCase | app/my-complaints/page.tsx:18-27 | Terms and statuses that differ only in case select the same rows. |
| MyComplaints.Csv | app/my-complaints/page.tsx:29-42 | The export always starts with the header line. |
| MyComplaints.CsvEmpty | app/my-complaints/page.tsx:29-42 | With no rows the export is the header line alone. |
| MyComplaints.CsvSnoc | app/my-complaints/page.tsx:29-42 | One more row adds one comma-joined line at the end. |
| MyComplaints.ExportDisabled | app/my-complaints/page.tsx:171 | The export button is disabled iff no row passes the filter. |
| MyComplaints.BannerFor | app/my-complaints/page.tsx:179-184 | The banner appears iff a term or a status is set. It shows how many rows pass out of all rows. |
| MyComplaints.Clear | app/my-complaints/page.tsx:185-190 | "Clear filters" empties the search term and resets the status filter to "all". |
| MyComplaints.ClearShowsEverything | app/my-complaints/page.tsx:185-190 | After "Clear filters" the banner is gone and every row is listed. |
| AdminGuard.CheckAdminStatus | components/admin-guard.tsx:19-40 | The decision is always made. Access is granted iff the flag and a login time are stored and the session is under a day old. A flagged but expired or unreadable session is removed from storage. Otherwise storage is untouched. |
| AdminGuard.ExpiresAtOneDay | components/admin-guard.tsx:25-35 | Exactly one day after login the session is refused and removed. |
| AdminGuard.CheckRedirectsUnlessSession | components/admin-guard.tsx:19-49 | After the check the guard redirects to the login page exactly when there is no flagged session younger than a day; it never redirects while undecided. |
| AdminGuard.Render | components/admin-guard.tsx:51-71 | The loader is shown while undecided, and the children exactly when access is granted. |
| AdminLogin.HandleLogin | app/admin/login/page.tsx:28-56 | Exactly the configured credentials record a session stamped now and lead on to the dashboard with a success toast. Other credentials leave storage as it was and show an error toast. Loading is always cleared. |
| AdminLogin.LoginThenGuardGrants | app/admin/login/page.tsx:35-38 | A successful login is honoured by the guard at any time less than a day later. |
| AdminLogin.LoginThenGuardExpires | app/admin/login/page.tsx:35-38 | From a day after login on, the guard refuses the session and removes it. |
| AdminLogin.FailedLoginChangesNothing | app/admin/login/page.tsx:48-53 | Wrong credentials leave the guard's decision as it was. |
| Toasts.ShowToast | components/enhanced-toast.tsx:117-120 | The new toast, identified by the clock, joins the end of the queue, which is otherwise unchanged. |
| Toasts.RemoveToast | components/enhanced-toast.tsx:122-124 | The result is an order-preserving selection holding exactly the toasts not carrying the id. |
| Toasts.RemoveUndoesShow | components/enhanced-toast.tsx:117-124 | Closing a toast whose id no other toast carries restores the previous queue. |
| Toasts.RemoveToastIdempotent | components/enhanced-toast.tsx:122-124 | Removing an id twice is removing it once. |
| Toasts.QueueAt | components/enhanced-toast.tsx:20-28 | Before its duration plus the 300 ms fade has passed since the toast's last mount, the queue is left alone; from then on no toast with its id remains. |
| Toasts.DefaultToastClosesAfterFourSeconds | components/enhanced-toast.tsx:20-28 | A toast shown without a duration under a fresh id leaves the queue as it found it exactly from 4300 ms after its last mount on. |
| Toasts.DisplayedText | components/enhanced-toast.tsx:82 | The caller's message unless it is empty, otherwise the type's default. The text is never empty. |
| Toasts.DisplayedEmoji | components/enhanced-toast.tsx:37-61 | The caller's emoji unless absent or empty, otherwise the type's default. The emoji is never empty. |
| ImpactEstimation.BaseOf | components/impact-estimation.tsx:16-45 | The base score lies in 1..3, and the head count is one of the five tier values. |
| ImpactEstimation.BaseIsFirstMatchingTier | components/impact-estimation.tsx:20-45 | The chain of tests equals the ordered keyword table: the first tier with a hit decides. |
| ImpactEstimation.Score | components/impact-estimation.tsx:47-55 | The score lies in 1..3. It equals the tier's at a place that is not busy; at a busy place it is one more than the tier's, capped at 3. |
| ImpactEstimation.Level | components/impact-estimation.tsx:58 | The label is "Low" exactly for score 1, "Medium" exactly for 2 and "High" exactly for 3. |
| ImpactEstimation.Timeframe | components/impact-estimation.tsx:60 | The timeframe is "1-2 weeks" exactly for score 1, "3-7 days" exactly for 2 and "1-3 days" exactly for 3. |
| ImpactEstimation.LevelAndTimeframeDistinguishScores | components/impact-estimation.tsx:57-61 | Level and timeframe each name the score one to one. |
| ImpactEstimation.CalculateImpact | components/impact-estimation.tsx:15-62 | The head count is the table's, doubled at a busy place. The level and timeframe are those of the score. |
| ImpactEstimation.BusyRoadIsHigh | components/impact-estimation.tsx:21-55 | A road complaint at a busy place is rated High, with 1000 people and "1-3 days". |
| ImpactEstimation.ImpactIgnoresCase | components/impact-estimation.tsx:16-51 | Case does not matter in the complaint or in the location. |
| ImpactEstimation.BusyPlaceNeverLowers | components/impact-estimation.tsx:47-55 | A busy place never lowers the score and doubles the head count. |
| Keywords.HitsThree | components/smart-suggestions.tsx:22 | A hit in a three-keyword group is one of three `includes` tests. |
| Keywords.FirstHit | components/smart-suggestions.tsx:22-62 | The position of the first group with a hit: every earlier group misses, or there is no hit at all. |
| SmartSuggestions.Classify | components/smart-suggestions.tsx:16-66 | Every text gets one of the five categories and four tips. |
| SmartSuggestions.CategoryIsFirstMatchingGroup | components/smart-suggestions.tsx:22-62 | The chain of tests equals the ordered table: the category and the four tips of the first keyword group the text mentions, or "General Issue" with the general tips. |
| SmartSuggestions.WaterBeforeRoads | components/smart-suggestions.tsx:22-30 | Text mentioning both water and a road is a water complaint. |
| SmartSuggestions.ClassifyIgnoresCase | components/smart-suggestions.tsx:18 | Case does not matter. |
| SmartSuggestions.Render | components/smart-suggestions.tsx:68 | The card is hidden exactly while there are no suggestions. |
| SmartSuggestions.ClassifiedCardShown | components/smart-suggestions.tsx:64-68 | Once the text has been classified, the card is shown. |
| NotificationPanel.BadgeFor | components/notification-system.tsx:62-66 | There is no badge exactly at zero. From 1 to 9 the badge is the single digit that parses back to the count. Beyond that it reads "9+". |
| NotificationPanel.IconFor | components/notification-system.tsx:40-51 | The default icon is used exactly for types other than the three the lookup knows. |
| NotificationPanel.DeclaredTypesGetDefaultIcon | components/notification-system.tsx:40-51 | Every notification type the store creates gets the default icon. |
| NotificationPanel.OpenPanel | components/notification-system.tsx:80-146 | The panel shows the empty message iff there are no notifications and lists the first ten. It has a footer with the total iff there are more than ten, and a "mark all read" button iff something is unread. |
| NotificationPanel.StatusChange | components/notification-system.tsx:128-132 | The "old → new" badge appears iff both statuses are non-empty, and shows them. |
| NotificationPanel.StatusNoticeShowsChange | components/notification-system.tsx:128-132 | A status notification from the store shows the complaint's old and new status. |
| NotificationPanel.MarkAllClearsBadge | components/notification-system.tsx:62-85 | After "mark all read" neither the badge nor the button is shown. |
| NotificationPanel.CleanupEffect | components/notification-system.tsx:24-30 | The first run drops the old notifications and sets the flag. Later runs change nothing. |
| NotificationPanel.CleanupRunsOnce | components/notification-system.tsx:24-30 | Running the effect again, even with a later cutoff, changes nothing more. |
| NotificationPanel.ToggleIndependentOfCleanup | components/notification-system.tsx:24-58 | Pressing the bell twice restores the panel, and opening or closing it has no effect on the one-time cleanup. |
| Walkthrough.Open | components/walkthrough-modal.tsx:43-47 | Opening the dialog shows the first page. |
| Walkthrough.Next | components/walkthrough-modal.tsx:54-60 | Next moves one page forward. On the last page it closes the dialog instead, and the page stays valid. |
| Walkthrough.Prev | components/walkthrough-modal.tsx:62-66 | Back moves one page back, and never goes before the first page. |
| Walkthrough.NextPrevInverse | components/walkthrough-modal.tsx:54-66 | Back undoes a Next that did not close, and Next undoes a Back that moved. |
| Walkthrough.FourthNextCloses | components/walkthrough-modal.tsx:54-60 | From the first page, the fourth Next is the one that closes. |
| Walkthrough.BackNeverCloses | components/walkthrough-modal.tsx:62-66 | Any number of Back presses never closes the dialog. |
| Walkthrough.FooterFor | components/walkthrough-modal.tsx:109-127 | Back is shown iff past the first page. The start label is shown iff on the last page, which is exactly when Next closes. |
| ProgressStepper.PhaseOf | components/progress-stepper.tsx:29-31 | A step is completed below the current number, active at it and upcoming above it. |
| ProgressStepper.MarkerOf | components/progress-stepper.tsx:45-67 | A check mark for completed steps and the bouncing dot for the active one, never both. |
| ProgressStepper.AtMostOneActive | components/progress-stepper.tsx:29-31 | With distinct ids, at most one step is active. |
| ProgressStepper.Width | components/progress-stepper.tsx:23 | The bar width is undefined for a single step. Otherwise it is between 0 and 100 for steps in range, 0 at the first step and 100 at the last. |
| ProgressStepper.WidthMonotone | components/progress-stepper.tsx:23 | The bar only grows as the current step advances. |
| ProgressStepper.WizardHasOneActive | app/complaint/page.tsx:50-54 | On each of the wizard's three steps, exactly one step marker is active. |
| AiProcessing.FireKeepsInv | components/ai-processing.tsx:24-60 | Every timer keeps the run's invariant. The counter grows by two exactly on an interval tick, the shown progress never falls and stays at most 100, and completion is reported at most once. |
| AiProcessing.StepAdvancesAtTarget | components/ai-processing.tsx:36-53 | On a tick the step advances by one exactly when the counter reaches the step's target, and never by more. |
| AiProcessing.RowPhase | components/ai-processing.tsx:99-135 | A row is active at the current step and completed below it. |
| AiProcessing.RunToCompletion | components/ai-processing.tsx:24-60 | Running every timer ends after 50 interval ticks, with progress 100, the last step current and completion reported exactly once in that run of the effect. |
| AiProcessing.Fire | components/ai-processing.tsx:28-59 | Only the completion timer calls `onComplete`, once per firing. Only an interval tick moves the counter, by two, and the shown progress never passes the step's target; the step index advances exactly on the tick that reaches that target. A step timer starts the interval iff steps remain, and the completion timer is armed only after the last step. Once nothing is pending, firing changes nothing. |
| Text.TrimEmptyIffBlank | app/complaint/page.tsx:281 | A trimmed text is empty exactly when the text is all whitespace. |
| Text.Trim | app/complaint/page.tsx:281 | The result is a contiguous stretch of the text with only whitespace before and after it, and it neither starts nor ends with whitespace. |
| Text.Substring | app/api/submit/route.ts:16 | With both bounds in range the result is the slice between them, in either order; bounds covering the whole text give the whole text. |
| Text.ParseInt | components/admin-guard.tsx:26 | A blank text, or one starting with a character that is neither whitespace, a sign nor a digit, is NaN. A number is read only from a text holding at least one digit. |
| Text.ParseIntNatToString | components/admin-guard.tsx:26 | Parsing the decimal text of a clock reading gives back that reading. |

## Left out

- Network I/O is not modelled. This covers the analysis backend request, the reverse-geocoding lookup, geolocation, the file download of the CSV export and routing. The backend's reply, the geocoder's address parts and the stored texts are inputs.
- React rendering, effects' scheduling, StrictMode double invocation and component lifecycles are not modelled. Effects are functions applied once per firing.
- Dates are not modelled as calendar values. `toLocaleDateString` output is an input string, and the "one week ago" instant of the notification cleanup is the `cutoff` parameter.
- Store.AddComplaint: compares timestamps as integer milliseconds. An unparsable ISO timestamp, which makes the source's comparison with NaN false, is not modelled.
- Store.UpdateComplaintStatus: all notifications added by one call share one clock reading, and so one id. The source reads the clock per notification, so ids may differ by a millisecond.
- Store: the toast raised for a duplicate (a side effect of the `sonner` library) and the persistence to browser storage are left out.
- Notification and toast ids are the clock reading, so two created in the same millisecond share an id. The model keeps this; nothing is proved unique.
- Dashboard.SuccessRate: uses exact integer rounding of the ratio. Floating-point error in `(a / t) * 100` is not modelled, so a value that lands a hair below one half in floating point may round differently.
- ProgressStepper.Width: real arithmetic, not IEEE doubles. The one-step case (division by zero) is `None` instead of NaN or Infinity.
- The dashboard's status-icon lookup, which fails for an unknown status, and its colour tables are not modelled.
- Timers are events, not durations, except for a toast's own closing time, which compares the clock with its last mount plus its duration and the 300 ms fade. Not modelled: the 1-second login delay, the 1.5-second navigation, the 1-second result-page navigation, the 2-second delay of the submit handler, and the 500 ms and 300 ms analysis delays.
- Toast: the action button and its callback are carried as a label only.
- The admin panel's optional chaining on title, description and name is not modelled: the store always holds strings there.
- The admin credentials are fixed client-side constants. Security is not a property of this model.
- The department page, home page, privacy consent dialog, complaint preview and layout are not part of this model. They are views over the same data.
- The image upload, camera and preview handling on the complaint page are left out. They only fill an optional preview string.
- MyComplaints.FilteredComplaints: the page reads `summary` and `created_at`, which the store's complaint record does not have, so on real store records `complaint.summary.toLowerCase()` throws a TypeError on every render while the store holds any complaint, even with an empty search term, because the filter calls it unconditionally. The model's rows carry exactly the fields the page reads and the crash is not modelled.
- Store.Key: lengths and positions count Unicode scalar values, while JavaScript's `substring` counts UTF-16 code units. For descriptions with characters outside the Basic Multilingual Plane (emoji) the 50-unit cut differs: thirty emoji followed by "a" and by "b" share a key in the source but not in the model.
- Store.AddComplaint: the duplicate test lower-cases with ASCII case mapping only; `toLowerCase` also folds non-ASCII letters, so titles differing only in the case of such letters are duplicates in the source but not in the model.
- ComplaintHistory.LocationLabel: the thirty-character cut counts Unicode scalar values, not UTF-16 code units, so it differs from the source for emoji and other astral characters.
- ComplaintForm.ReferenceIdFor: the three-character cut of the department and its upper-casing work on Unicode scalar values with ASCII case mapping, not on UTF-16 code units with full Unicode case mapping.
- Text.Lower: maps ASCII letters only. Every other character is kept, where `toLowerCase` maps all Unicode letters.
- Text.Upper: maps ASCII letters only, where `toUpperCase` maps all Unicode letters (and may lengthen the text, as for "ß").
- ComplaintForm.RegionOf: the bounding-box tests use exact real arithmetic on the coordinates, not IEEE doubles.
- ComplaintForm.ProcessingComplete: one clock reading serves the reference id, the complaint id and the timestamp, where the source reads `Date.now()` separately for each, so they may differ by a millisecond in the source. SubmitApi.Post likewise uses one reading for the reference id, the id and the ISO timestamp.
- ComplaintForm.ProcessingComplete: stored history that is valid JSON but not an array is treated like unparsable text, a failure. Spreading a JSON string instead yields its characters as entries, which the model does not follow. Dashboard.AllComplaints likewise.
- Toasts.QueueAt, Toasts.DefaultToastClosesAfterFourSeconds: the toast container is a new component on every render of the page that uses the toasts, so each such render remounts every visible toast and restarts its timer. Such renders include showing or removing another toast and every keystroke on the complaint and login pages. The model takes the time of the last mount as an input and does not derive it from those renders. Two default toasts shown at 0 ms and 1000 ms close at about 5300 ms and 9600 ms, not at 4300 ms and 5300 ms. The close button is not modelled either.
- AiProcessing.RunToCompletion: "completion exactly once" holds for one run of the effect. The effect depends on `onComplete` and has no cleanup, and the complaint page passes a new handler on every render while processing stays shown after a success. A re-render therefore starts a second run whose timers survive the navigation and call the handler again. That means a second backend request, a second history entry and a second `addComplaint`. The re-run is not modelled.
- ComplaintHistory.Mount: stored JSON that is not an array but has length 0, such as `""` or `{"length":0}`, passes the emptiness test and renders nothing in the source. The model treats every such value as failing.
