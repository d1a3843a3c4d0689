# MailMind core, modelled in Dafny

MailMind is a web mail assistant. It lists a user's recent Gmail messages
and classifies each one into a small taxonomy with a language model. It
caches those classifications keyed by message id, each cached row recording the user it was made for. In the dashboard the user can filter
the list, see per-category statistics, read an email with its AI analysis
(summary, extracted entities, phishing verdict), draft replies, and turn
emails into tasks on a kanban board. A route guard keeps signed-out users
out of the dashboard.

This project models the decision logic of that core:

- `messages_route.dfy` is the message-list API route. It covers Gmail
  payload normalisation (headers, body extraction, dropped messages), the
  merge of cached and fresh classifications, and the whole `GET` handler as
  one method over the outcomes of its external calls.
- `classification.dfy` is the classifier wrapper: the short cut for empty
  emails, the body truncation, and the check of the reply against the
  taxonomy with a fallback.
- `dashboard_content.dfy` is the dashboard's filter state and the three
  filter steps. It is a class over the component's state.
- `stats_cards.dfy` holds the per-category counts.
- `tasks_board.dfy` is the kanban board: grouping by column, `arrayMove`,
  and the optimistic drag update with its revert. It is a class.
- The email view is split into `email_view_modal.dfy` (the modal),
  `summary_card.dfy`, `entities_card.dfy` and `phishing_indicator.dfy`.
- `sender.dfy` holds the two sender-parsing regexes that several
  components share.
- `email_list.dfy` is the list's render precedence and the Google account
  action.
- `middleware.ts` is modelled in `middleware.dfy`.
- The dialogs are `change_password.dfy`, `delete_account.dfy` and
  `task_creator.dfy`. `login_page.dfy` is the login page and
  `reply_composer.dfy` the reply assistant. Each is a class whose methods
  take the answers of the services they call as parameters.
- Helper files hold the JavaScript semantics the components rely on:
  - `js_strings.dfy`: `trim`, `includes`, lower and upper case, UTF-16
    length, and `split`/`join` on one character;
  - `js_arrays.dfy`: `findIndex`, `some`, `filter`;
  - `wrappers.dfy`: `Option` and string truthiness;
  - `mail.dfy`: the shared `Message` record.

External services are parameters of the members that use them. These are
Gmail, the Groq model, Supabase, the Firebase authentication service and
the application's own API. Base64 decoding, date parsing, ISO and locale
date formatting, and `encodeURIComponent` are also parameters. Timestamps
are integer milliseconds, and the local time zone is a fixed offset.

## Model

| member | source | states |
|---|---|---|
| MessagesRoute.HeaderValue | app/api/messages/route.ts:69-71 | the value of the first header whose lower-cased name is the key; the fallback when no header matches; never empty when the fallback is not |
| MessagesRoute.BodyText | app/api/messages/route.ts:73-81 | with parts: the decoded data of the first `text/plain` part, else empty; without parts: the decoded payload body, else empty |
| MessagesRoute.Normalise | app/api/messages/route.ts:67-93 | a message is dropped exactly when its id or internal date is missing, and fails exactly when its date cannot be parsed; a kept one has its id, the value of the first From/Subject header or `N/A`/`Sem Assunto` (`HeaderValue`), the snippet or "", the parsed date, `unread` iff `UNREAD` is a label, labels defaulting to empty, the decoded body, and no category yet |
| MessagesRoute.NormaliseAll | app/api/messages/route.ts:67-93 | every subject is non-empty and no message arrives classified; an unparseable date on a keepable message fails the whole list |
| MessagesRoute.NormaliseAllKeepsOrder | app/api/messages/route.ts:67-93 | the kept messages are exactly the keepable fetched ones, in provider order |
| MessagesRoute.GmailIds | app/api/messages/route.ts:84 | the ids of the fetched messages, one each, in order |
| MessagesRoute.DroppedStep | app/api/messages/route.ts:93 | a dropped message adds nothing to the kept list |
| MessagesRoute.NormaliseAllAligned | app/api/messages/route.ts:67-93 | the listed messages are, position by position, `Normalise` of the keepable fetched messages |
| MessagesRoute.AlignedCons | app/api/messages/route.ts:93 | prepending a kept message and its normal form keeps the two lists aligned |
| MessagesRoute.KeptStep | app/api/messages/route.ts:93 | a kept message heads the kept list with its own id |
| MessagesRoute.Merge | app/api/messages/route.ts:96-126 | only the category changes; it is always present and non-empty; an uncached message gets its fresh classification, a cached one keeps or receives the cached value |
| MessagesRoute.ClassifyOne | app/api/messages/route.ts:99-110 | one message: a cached category is reused, an uncached one takes the model's answer and yields one new row and one id |
| MessagesRoute.ClassifyUncached | app/api/messages/route.ts:96-110 | the loop classifies exactly the uncached messages, in order; it extends the cache map without changing cached entries, and queues exactly `NewRows` |
| MessagesRoute.ClassifiedUpTo | app/api/messages/route.ts:96-110 | the state of the message list part-way through the loop: the first `i` messages have their step-6 value, the rest are still as fetched |
| MessagesRoute.ClassifiedUpToStep | app/api/messages/route.ts:96-110 | writing message `i`'s classified value in place moves the classified prefix on by one |
| MessagesRoute.KeepsCacheInsert | app/api/messages/route.ts:102 | recording a category for an uncached id leaves every cached entry of `classificationMap` as it was |
| MessagesRoute.SuffixStep | app/api/messages/route.ts:96 | the uncached ids of a suffix are those of its first message followed by those of the rest |
| MessagesRoute.FillFromCache | app/api/messages/route.ts:122-126 | a message without a category takes the map's value or "Não classificado"; the others are unchanged |
| MessagesRoute.MergeClassifications | app/api/messages/route.ts:96-126 | each returned message is `Merge` of the input; the rows queued and the ids asked are `NewRows` and `UncachedIds` |
| MessagesRoute.CacheMap | app/api/messages/route.ts:58 | every cached id is a key; every key and value comes from a cache row, and an id's value is the category of its last row, as `new Map` keeps the last entry |
| MessagesRoute.CacheMapStep | app/api/messages/route.ts:58 | adding one more row to the map keeps every id a key, every value from a row, and the last row's category for each id |
| MessagesRoute.FetchAll | app/api/messages/route.ts:61-67 | the fetch step fails exactly when some entry with a truthy id fails to fetch; otherwise it yields one message per entry with a truthy id, the one fetched for that id, in list order; entries without an id are skipped |
| MessagesRoute.GetCalls | app/api/messages/route.ts:61-65 | exactly one `get` call per metadata entry with a truthy id, for that id, in list order |
| MessagesRoute.Get | app/api/messages/route.ts:20-134 | 401 iff an auth error, no session or a falsy Google token, and then no Gmail call, with the missing-token message when only the token is absent; the cache is queried before any message is fetched, so a failed list, an empty list or a failed cache query makes only the list call, and otherwise the calls are the list call followed by `GetCalls` of the listing; an empty list answers `[]` with total 0; `total` is the number returned; a 500 exactly when, after authorisation, the list call, the cache query, a fetch or a date parse fails; when every step succeeds the answer is the listing, each message the merge of its normalised message, and the queued rows are `NewRows`; a failure inserts nothing |
| MessagesRoute.MergedCategory | app/api/messages/route.ts:122-126 | every returned category is a taxonomy label, the fallback, or the cached value |
| MessagesRoute.NewRowsSound | app/api/messages/route.ts:103-109 | a queued row never carries the fallback, always carries the session user's id, and belongs to an uncached message with that message's fresh category |
| MessagesRoute.AskedExactlyUncached | app/api/messages/route.ts:96 | the classifier is asked about an id iff it is not cached and belongs to a listed message |
| MessagesRoute.ClassifierAlwaysAsked | app/api/messages/route.ts:87-100 | since a normalised subject is never empty, the route never hits the classifier's empty-email short cut |
| Classification.Utf16Prefix | lib/ai/classification.ts:46 | a prefix of the body of at most n UTF-16 units, and the longest such prefix that does not split a character |
| Classification.ValidLabel | lib/ai/classification.ts:54-64 | a label exists iff the reply parsed, its `category` is a string, and the string is in the taxonomy; the label is that string |
| Classification.Classify | lib/ai/classification.ts:35-71 | no request iff subject and body are both empty; the request is the prompt; the result is in the taxonomy or the fallback; it differs from the fallback iff a request was made and the reply carried a valid label, and then it is that label |
| Classification.UnclassifiedOutsideTaxonomy | lib/ai/classification.ts:7 | the fallback is not a taxonomy member |
| Classification.InvalidLabelNeverReturned | lib/ai/classification.ts:62-64 | a label outside the taxonomy yields the fallback, never the raw label |
| Classification.PromptBounded | lib/ai/classification.ts:46 | the prompt carries the whole subject and a prefix of the body of at most 2000 UTF-16 units |
| Classification.PrefixWhole | lib/ai/classification.ts:46 | a body within the limit is sent whole |
| DashboardContent.StartOfDay | components/dashboard/dashboard-content.tsx:104 | the first millisecond of the same local day, at or before t |
| DashboardContent.EndOfDay | components/dashboard/dashboard-content.tsx:108 | the last millisecond of the same local day, at or after t |
| DashboardContent.SameDayBounds | components/dashboard/dashboard-content.tsx:111 | same local day iff the timestamp lies between the other's start and end of day |
| DashboardContent.DayMovesIdempotent | components/dashboard/dashboard-content.tsx:104-108 | moving to the start or end of the day twice equals once |
| DashboardContent.WithChange | components/dashboard/dashboard-content.tsx:81-83 | the named key takes the value; the other keys are unchanged |
| DashboardContent.AfterApply | components/dashboard/dashboard-content.tsx:100-112 | the search term and category are untouched; the dates change only when a `from` date is set and messages reach the date step |
| DashboardContent.FilteredIsFilter | components/dashboard/dashboard-content.tsx:85-116 | the three steps in turn equal one filter by the conjunction of the active filters |
| DashboardContent.StepIsFilter | components/dashboard/dashboard-content.tsx:88-94 | the search step is a filter that is off for an empty term |
| DashboardContent.CategoryStepIsFilter | components/dashboard/dashboard-content.tsx:96-98 | the category step is a filter that is off for an empty category |
| DashboardContent.DateStepIsFilter | components/dashboard/dashboard-content.tsx:100-113 | the date step is a filter that is off without a `from` date |
| DashboardContent.FilterSame | components/dashboard/dashboard-content.tsx:85-116 | filters by predicates that agree everywhere give the same list |
| DashboardContent.FilteredIsSubsequence | components/dashboard/dashboard-content.tsx:86-115 | the result is an order-preserving subsequence of all messages |
| DashboardContent.FilteredMembers | components/dashboard/dashboard-content.tsx:86-115 | a message is shown iff it is in the list and passes every active filter |
| DashboardContent.SearchKeeps | components/dashboard/dashboard-content.tsx:88-94 | a non-empty term keeps exactly the messages whose lower-cased subject or sender contains the lower-cased term |
| DashboardContent.CategoryKeeps | components/dashboard/dashboard-content.tsx:96-98 | a non-empty category keeps exactly the messages with that category |
| DashboardContent.FromOnlyKeepsSameDay | components/dashboard/dashboard-content.tsx:100-111 | with only `from`, a message is kept iff it falls on that local day |
| DashboardContent.RangeKeepsInclusive | components/dashboard/dashboard-content.tsx:106-110 | with `from` and `to`, a message is kept iff it lies between the start of the `from` day and the end of the `to` day, inclusive |
| DashboardContent.NoFilterIsIdentity | components/dashboard/dashboard-content.tsx:86-115 | with every filter empty the list is unchanged |
| DashboardContent.ApplyAgainSameResult | components/dashboard/dashboard-content.tsx:100-112 | the dates the filter rewrites in place select the same messages as before, so applying again gives the same list |
| DashboardContent.ClearedShowsAll | components/dashboard/dashboard-content.tsx:28-32 | the initial filters show every message |
| DashboardContent.Dashboard.constructor | components/dashboard/dashboard-content.tsx:42-44 | empty lists and the initial filters |
| DashboardContent.Dashboard.ReceiveMessages | components/dashboard/dashboard-content.tsx:56-58 | `messages` or `[]` becomes both lists; filters unchanged |
| DashboardContent.Dashboard.HandleFilterChange | components/dashboard/dashboard-content.tsx:81-83 | only the filters change, as `WithChange` says |
| DashboardContent.Dashboard.HandleApplyFilters | components/dashboard/dashboard-content.tsx:85-116 | the view becomes `Filtered` of all messages under the old filters; the filters become `AfterApply` |
| DashboardContent.Dashboard.HandleClearFilters | components/dashboard/dashboard-content.tsx:118-121 | initial filters and the whole list |
| StatsCards.Count | components/dashboard/stats-cards.tsx:55-60 | a category count never exceeds the number of messages |
| StatsCards.Render | components/dashboard/stats-cards.tsx:34-67 | loading shows only the four names; otherwise exactly four stats in the fixed order, the total first, each other stat the count of its exact category |
| StatsCards.CountAppend | components/dashboard/stats-cards.tsx:55-60 | counting a concatenation adds the counts |
| StatsCards.CountOne | components/dashboard/stats-cards.tsx:55-60 | a single message counts under its own category only |
| StatsCards.SingleSum | components/dashboard/stats-cards.tsx:53-60 | one message adds at most one to the four counts, exactly one when its category is one of them |
| StatsCards.CountsWithinTotal | components/dashboard/stats-cards.tsx:53-60 | the four category counts together never exceed the total |
| StatsCards.CountsCoverTotal | components/dashboard/stats-cards.tsx:53-60 | when every message has one of the four categories, the counts add up to the total |
| StatsCards.SumSplit | components/dashboard/stats-cards.tsx:55-60 | the four counts of a list are those of its head plus those of its tail |
| TasksBoard.Column | components/dashboard/tasks-content.tsx:47-57 | every task of a column has that column's status |
| TasksBoard.MovePos | components/dashboard/tasks-content.tsx:80 | the landing position is within the column; -1 means the last slot |
| TasksBoard.ArrayMove | components/dashboard/tasks-content.tsx:80 | same length and multiset; the moved element lands at its target |
| TasksBoard.ArrayMoveIsSplice | components/dashboard/tasks-content.tsx:80 | the move is: take the element out, insert it at the landing position |
| TasksBoard.SpliceKeepsElements | components/dashboard/tasks-content.tsx:80 | taking an element out and re-inserting it keeps the multiset |
| TasksBoard.ArrayMoveAt | components/dashboard/tasks-content.tsx:80 | every position of the moved column, spelled out |
| TasksBoard.ArrayMoveBack | components/dashboard/tasks-content.tsx:80 | moving from i to j and back restores the column |
| TasksBoard.ArrayMoveBackAt | components/dashboard/tasks-content.tsx:80 | each position is restored by the move back |
| TasksBoard.ColumnMembers | components/dashboard/tasks-content.tsx:53-55 | a task is in a column iff it is on the board with that status |
| TasksBoard.ColumnInOrder | components/dashboard/tasks-content.tsx:53-55 | each column keeps the board order |
| TasksBoard.ColumnSnoc | components/dashboard/tasks-content.tsx:53-55 | appending a task appends it to its status's column only |
| TasksBoard.ColumnCons | components/dashboard/tasks-content.tsx:53-55 | the first task heads its status's column and no other |
| TasksBoard.HeadTail | components/dashboard/tasks-content.tsx:47-57 | a board's tasks are its first task and the rest, as a multiset |
| TasksBoard.InColumnsCons | components/dashboard/tasks-content.tsx:47-57 | the first task lands in exactly one column |
| TasksBoard.ColumnsPartition | components/dashboard/tasks-content.tsx:47-57 | the three columns together hold every task exactly once |
| TasksBoard.ColumnSizes | components/dashboard/tasks-content.tsx:47-57 | the three column sizes add up to the number of tasks |
| TasksBoard.SplitByColumn | components/dashboard/tasks-content.tsx:80-83 | a column plus the tasks outside it is the whole board, as a multiset |
| TasksBoard.Optimistic | components/dashboard/tasks-content.tsx:62-87 | the board shown after the drop; a cross-column move keeps the board's size |
| TasksBoard.CrossColumnChangesOneStatus | components/dashboard/tasks-content.tsx:73-87 | only the dragged task changes, only its status, in place |
| TasksBoard.SameColumnReorders | components/dashboard/tasks-content.tsx:77-83 | the other columns' tasks first in their order, then the column permuted; no task lost or duplicated |
| TasksBoard.Board.constructor | components/dashboard/tasks-content.tsx:36 | the board starts empty |
| TasksBoard.Board.ReceiveTasks | components/dashboard/tasks-content.tsx:41-45 | a fetched array replaces the board; none keeps it |
| TasksBoard.Board.TasksByColumn | components/dashboard/tasks-content.tsx:47-57 | the loop builds each column exactly as `Column` defines it |
| TasksBoard.Board.HandleDragEnd | components/dashboard/tasks-content.tsx:59-105 | no target, the card itself as target, or an unknown id changes nothing and sends nothing; otherwise the optimistic board is shown, the PATCH carries the new status, and a failed PATCH restores the snapshot exactly |
| PhishingIndicator.Band | components/dashboard/phishing-indicator.tsx:69-82 | destructive iff the score is above 0.8, warning iff it is in (0.5, 0.8], default otherwise |
| PhishingIndicator.Render | components/dashboard/phishing-indicator.tsx:45-110 | loading first; no data gives a destructive "unavailable" alert; otherwise the band's variant and title, the reasons as given, and the false-positive report iff the variant is not default, carrying the message id |
| PhishingIndicator.BandMonotone | components/dashboard/phishing-indicator.tsx:74-82 | a higher score never gives a less alarming variant |
| PhishingIndicator.BandBoundaries | components/dashboard/phishing-indicator.tsx:74-81 | exactly 0.8 warns and exactly 0.5 is safe |
| PhishingIndicator.UnavailableIsNotSafe | components/dashboard/phishing-indicator.tsx:57-72 | the unavailable alert differs from any verdict on "not phishing" and is not the default variant |
| EntitiesCard.Item | components/dashboard/entities-card.tsx:26-27 | no row iff the value is falsy; otherwise exactly one row with that title and value |
| EntitiesCard.Render | components/dashboard/entities-card.tsx:39-100 | skeleton iff loading; nothing iff the entities are null or every member is null or an empty array; otherwise the card's rows |
| EntitiesCard.EmptyInvoiceHidesRowNotCard | components/dashboard/entities-card.tsx:27-78 | an empty invoice number hides its row but the card still shows |
| EntitiesCard.LinksAsGiven | components/dashboard/entities-card.tsx:84-97 | the links row is the URL list as given, order and duplicates kept |
| SummaryCard.ActionLabel | components/dashboard/summary-card.tsx:25-68 | the mapped text for a known action; the fallback iff the action is unknown; never empty |
| SummaryCard.Render | components/dashboard/summary-card.tsx:42-110 | skeleton iff loading; nothing iff no summary; otherwise the text, the action label, the deadline iff truthy, and buttons enabled iff auth is not loading |
| SummaryCard.LabelsDistinguishActions | components/dashboard/summary-card.tsx:25-31 | distinct known actions get distinct labels |
| Middleware.Guard | middleware.ts:13-34 | to the dashboard iff an auth page with a session; to login iff a `/dashboard` prefix without a session, carrying the path; pass otherwise |
| Middleware.NoRedirectLoop | middleware.ts:16-31 | following a redirect never redirects again |
| Middleware.RedirectedFromPassesAfterLogin | middleware.ts:25-31 | the page a user was sent away from passes once signed in |
| Middleware.Middleware | middleware.ts:4-48 | paths the matcher excludes pass unguarded; the rest are guarded |
| Middleware.MatcherExclusions | middleware.ts:46 | static files, images and the favicon are excluded |
| Middleware.MatcherPages | middleware.ts:46 | the dashboard, login and sign-up pages are matched |
| Middleware.PageMatched | middleware.ts:46 | any path whose first character after `/` is a lower-case letter other than `f` is matched |
| Middleware.DashboardPrefixIsLiteral | middleware.ts:25-31 | every anonymous request for a path starting with `/dashboard`, `/dashboardx` included, is sent to login carrying the path |
| Sender.NextTerminator | components/dashboard/email-view-modal.tsx:86 | the first line terminator at or after k, or the end of the string |
| Sender.LastIndexIn | components/dashboard/email-view-modal.tsx:86 | the last occurrence of a character in a range, or -1 |
| Sender.AngleSearch | components/dashboard/email-view-modal.tsx:86 | the leftmost `<` that can match, with the farthest `>` on its line |
| Sender.FromAddress | components/dashboard/email-view-modal.tsx:86 | the text of the leftmost-longest `<…>` match, else the whole `from` |
| Sender.NameSearch | components/dashboard/email-view-modal.tsx:101 | the last `<` at which `^(.*)<.*>$` matches, or none |
| Sender.FromName | components/dashboard/email-view-modal.tsx:101-102 | the whole `from` when the pattern fails; otherwise the trimmed prefix before the match with every `"` removed |
| Sender.FromInitial | components/dashboard/email-view-modal.tsx:103 | empty iff the name is empty; otherwise the upper-cased first character |
| Sender.MailboxLayout | components/dashboard/email-view-modal.tsx:86 | where the name, `<`, address and `>` sit in `name <address>` |
| Sender.NoLineTerminatorAppend | components/dashboard/email-view-modal.tsx:86 | joining two strings without line terminators gives none |
| Sender.MailboxRoundTrip | components/dashboard/email-view-modal.tsx:86-102 | parsing `name <address>` gives back the name and the address |
| Sender.MailboxPlain | components/dashboard/email-view-modal.tsx:86 | `name <address>` of plain parts has no line terminator |
| Sender.MailboxAddress | components/dashboard/email-view-modal.tsx:86 | the address regex finds exactly the address of `name <address>` |
| Sender.MailboxName | components/dashboard/email-view-modal.tsx:101-102 | the name regex, trim and quote removal give back the name |
| Sender.TrimAppendSpace | components/dashboard/email-view-modal.tsx:102 | trimming a trimmed name with one trailing space gives the name |
| EmailViewModal.UnquoteQuote | components/dashboard/email-view-modal.tsx:90 | removing the quote markers gives back the body |
| EmailViewModal.EveryLineMarked | components/dashboard/email-view-modal.tsx:90 | every line break in the quoted body is followed by "> " |
| EmailViewModal.ReplyLink | components/dashboard/email-view-modal.tsx:86-92 | to the sender's address; subject "Re: " and the subject; the body is the attribution line and the quoted original, both escaped |
| EmailViewModal.ReplyQuotesOriginal | components/dashboard/email-view-modal.tsx:90 | the reply body ends with the quoted original, which can be recovered, after "> " |
| EmailViewModal.Prefill | components/dashboard/email-view-modal.tsx:106-112 | the title is the summary text or empty; the due date is the entities' due date when truthy, else none |
| EmailViewModal.Modal.constructor | components/dashboard/email-view-modal.tsx:45-53 | no results, no error, not loading, composer and task creator closed, no prefill |
| EmailViewModal.Modal.BeginParse | components/dashboard/email-view-modal.tsx:59-63 | loading, and summary, entities, phishing and error all reset |
| EmailViewModal.Modal.EndParse | components/dashboard/email-view-modal.tsx:64-73 | the three results on success, the error otherwise; loading off |
| EmailViewModal.Modal.OnOpenOrEmailChange | components/dashboard/email-view-modal.tsx:56-82 | an open modal with an email requests its analysis; a failure leaves all three results empty and sets the error; closing hides the composer and the task creator |
| EmailViewModal.Modal.HandleCreateTaskClick | components/dashboard/email-view-modal.tsx:106-112 | the prefill from the analysis, and the task creator opens |
| EmailViewModal.Modal.HandleSummaryUpdate | components/dashboard/email-view-modal.tsx:114-118 | only the text of an existing summary changes; nothing happens without a summary |
| EmailViewModal.Modal.OpenReplyComposer | components/dashboard/email-view-modal.tsx:147 | the summary card's reply button shows the reply composer and changes nothing else |
| EmailViewModal.Modal.CloseTaskCreator | components/dashboard/email-view-modal.tsx:202 | closing the task creator hides it and changes nothing else, the prefill included |
| EmailList.IsGoogleLinked | components/dashboard/email-list.tsx:36 | linked iff a user exists and some provider id is `google.com` |
| EmailList.ItemOf | components/dashboard/email-list.tsx:98-121 | each row shows the parsed sender name and initial, the email's own subject and snippet, and a badge iff the category is truthy, showing that category |
| EmailList.Items | components/dashboard/email-list.tsx:98 | one row per message, in order |
| EmailList.Render | components/dashboard/email-list.tsx:65-132 | loading (with the loading text), then the error (carrying the error itself), then the connect prompt without a token, then the list exactly when there are messages, else the empty notice; the prompt shows the action error if set, else the expired or connect text by link state |
| EmailList.ActionErrorFor | components/dashboard/email-list.tsx:57-61 | credential-in-use gets its fixed message; anything else the prefixed error message |
| EmailList.List.constructor | components/dashboard/email-list.tsx:22-24 | no action error, no selection, modal closed |
| EmailList.List.HandleEmailClick | components/dashboard/email-list.tsx:26-29 | the email is selected and the modal opens |
| EmailList.List.HandleCloseModal | components/dashboard/email-list.tsx:31-34 | the modal closes and the selection clears |
| EmailList.List.HandleGoogleAction | components/dashboard/email-list.tsx:38-63 | no user sets an error and opens nothing; reauthenticate when linked, link otherwise; a token is stored and clears the error; a failure sets the mapped error |
| EmailList.PromptShowsActionError | components/dashboard/email-list.tsx:75-81 | after a failed action the prompt shows that failure |
| ChangePassword.WithField | components/dashboard/change-password-modal.tsx:35-38 | only the named field takes the value |
| ChangePassword.Validate | components/dashboard/change-password-modal.tsx:44-57 | passes iff the passwords match, the new one has at least 6 UTF-16 units, and the user has an email; a mismatch is reported first, then length, then the user |
| ChangePassword.MismatchReportedFirst | components/dashboard/change-password-modal.tsx:44-51 | a short mismatched password is reported as a mismatch |
| ChangePassword.FailureMessage | components/dashboard/change-password-modal.tsx:72-77 | the wrong-password message iff the code is `auth/wrong-password` |
| ChangePassword.Dialog.constructor | components/dashboard/change-password-modal.tsx:27-33 | empty fields, not saving, no error |
| ChangePassword.Dialog.HandleInputChange | components/dashboard/change-password-modal.tsx:35-38 | fields change as `WithField` says; nothing else |
| ChangePassword.Dialog.HandleSave | components/dashboard/change-password-modal.tsx:40-81 | no request iff validation fails, and then its message is shown; otherwise re-authentication with the email and current password; success closes and clears the fields; failure shows the mapped message; saving ends false |
| ChangePassword.Dialog.HandleClose | components/dashboard/change-password-modal.tsx:83-87 | the error and all fields cleared |
| DeleteAccount.IsConfirmationValid | components/dashboard/delete-account-modal.tsx:40-41 | valid iff the text is the phrase character for character |
| DeleteAccount.PaddingRefused | components/dashboard/delete-account-modal.tsx:41 | any text with a whitespace character before or after it is refused, since the comparison does not trim |
| DeleteAccount.LowerCaseRefused | components/dashboard/delete-account-modal.tsx:41 | lower-casing any text that starts with a capital, the phrase included, gives a refused text, since the comparison does not fold case |
| DeleteAccount.Dialog.constructor | components/dashboard/delete-account-modal.tsx:33-35 | empty confirmation, not deleting, no error |
| DeleteAccount.Dialog.SetConfirmationText | components/dashboard/delete-account-modal.tsx:89 | only the confirmation text changes |
| DeleteAccount.Dialog.HandleDelete | components/dashboard/delete-account-modal.tsx:43-68 | deletion is requested iff the confirmation is valid and a user is signed in; the confirmation is checked first; success keeps deleting and goes to `/login`; failure shows the message and stops deleting |
| TaskCreator.Prepare | components/dashboard/task-creator.tsx:55-70 | refused iff the title is empty; the payload carries the message id, title, description, priority, and the due date in ISO form iff one is set |
| TaskCreator.Dialog.constructor | components/dashboard/task-creator.tsx:39-44 | empty fields and priority medium |
| TaskCreator.Dialog.SetTitle | components/dashboard/task-creator.tsx:106 | only the title changes |
| TaskCreator.Dialog.SetDescription | components/dashboard/task-creator.tsx:110 | only the description changes |
| TaskCreator.Dialog.SetDueDate | components/dashboard/task-creator.tsx:123 | only the due date changes |
| TaskCreator.Dialog.SetPriority | components/dashboard/task-creator.tsx:129 | only the priority changes |
| TaskCreator.Dialog.ApplyPrefill | components/dashboard/task-creator.tsx:46-53 | the title from the prefill; the due date only when the prefill has one |
| TaskCreator.Dialog.HandleSubmit | components/dashboard/task-creator.tsx:55-90 | an empty title posts nothing and shows an error; an invalid date fails before posting; the posted payload is `Prepare`'s; success closes and resets every field; failure keeps the fields; loading ends false |
| LoginPage.SignInMessage | app/login/page.tsx:49-59 | the credentials message iff the code is invalid-credential, user-not-found or wrong-password; invalid-email and too-many-requests each get their own; every other code gets the unknown-error text |
| LoginPage.GoogleMessage | app/login/page.tsx:86-91 | a cancelled popup and a blocked popup each get their own message; anything else gets the generic failure |
| LoginPage.MessagesTellPathApart | app/login/page.tsx:49-91 | no email sign-in message equals a Google sign-in message |
| LoginPage.Page.constructor | app/login/page.tsx:21-25 | empty email and password, not loading, no error |
| LoginPage.Page.HandleEmailChange | app/login/page.tsx:30-32 | only the email changes |
| LoginPage.Page.HandlePasswordChange | app/login/page.tsx:34-36 | only the password changes |
| LoginPage.Page.HandleSubmit | app/login/page.tsx:38-64 | signs in with the typed credentials; success goes to the dashboard with no error; failure shows the mapped message; loading ends false |
| LoginPage.Page.HandleGoogleSignIn | app/login/page.tsx:66-96 | a token is stored iff the popup succeeded with one; success goes to the dashboard; failure shows the mapped message |
| ReplyComposer.ToneOf | components/dashboard/reply-composer.tsx:14 | a recognised tone's value is the name it was read from |
| ReplyComposer.LengthOf | components/dashboard/reply-composer.tsx:15 | a recognised length's value is the name it was read from |
| ReplyComposer.NamesRoundTrip | components/dashboard/reply-composer.tsx:14-15 | every tone and length is read back from the value it is sent as |
| ReplyComposer.SendLink | components/dashboard/reply-composer.tsx:77-78 | the recipient is `FromAddress` of the sender (the bracketed address, else the whole `from`), with the escaped draft subject and body |
| ReplyComposer.SendLinkPlainSender | components/dashboard/reply-composer.tsx:77 | a sender with no `<` is answered at the whole `from` string |
| ReplyComposer.SendLinkReachesSender | components/dashboard/reply-composer.tsx:77 | a reply to `name <address>` goes to the address |
| ReplyComposer.Composer.constructor | components/dashboard/reply-composer.tsx:32-35 | tone formal, length médio, no draft |
| ReplyComposer.Composer.SetTone | components/dashboard/reply-composer.tsx:95 | only the tone changes |
| ReplyComposer.Composer.SetLength | components/dashboard/reply-composer.tsx:108 | only the length changes |
| ReplyComposer.Composer.HandleGenerateReply | components/dashboard/reply-composer.tsx:39-59 | the request carries the tone, length and only the original body; the draft is replaced on success and cleared with an error toast on failure |
| ReplyComposer.Composer.HandleCopyToClipboard | components/dashboard/reply-composer.tsx:61-69 | copies iff there is a draft with a non-empty body, and then copies that body |
| ReplyComposer.Composer.HandleSendEmail | components/dashboard/reply-composer.tsx:71-81 | a link iff there is a draft, and it is `SendLink` of the sender and the draft |
| JsArrays.Any | components/dashboard/email-list.tsx:36 | true iff some element satisfies the predicate |
| JsArrays.FilterIsSubsequence | components/dashboard/dashboard-content.tsx:90-97 | `filter` keeps an order-preserving subsequence |
| JsArrays.FirstIndex | components/dashboard/tasks-content.tsx:70 | the first index whose element satisfies the predicate, or none when none does |
| JsArrays.FindIndex | components/dashboard/tasks-content.tsx:70-79 | the first satisfying index, or -1 exactly when no element satisfies it |
| JsArrays.Filter | components/dashboard/tasks-content.tsx:82 | every kept element satisfies the predicate; never longer than the input |
| JsArrays.SubsequenceDropHead | components/dashboard/dashboard-content.tsx:90-97 | a subsequence of the tail is one of the whole |
| JsArrays.SubsequenceTail | components/dashboard/dashboard-content.tsx:90-97 | dropping a subsequence's head keeps a subsequence |
| JsArrays.FilterMembers | components/dashboard/tasks-content.tsx:82 | an element is kept iff it is in the input and satisfies the predicate |
| JsArrays.FilterKeepsAll | components/dashboard/dashboard-content.tsx:90-97 | a predicate true everywhere keeps the whole input |
| JsArrays.FilterTwice | components/dashboard/dashboard-content.tsx:90-101 | two filters in a row are one filter by both predicates |
| JsArrays.FilterAppend | components/dashboard/stats-cards.tsx:56-59 | filtering a concatenation concatenates the filtered parts |
| JsStrings.TrimStart | components/dashboard/email-view-modal.tsx:102 | a suffix of the input whose dropped prefix is all whitespace and which does not start with whitespace |
| JsStrings.TrimEnd | components/dashboard/email-view-modal.tsx:102 | a prefix of the input whose dropped suffix is all whitespace and which does not end with whitespace |
| JsStrings.Trim | components/dashboard/email-view-modal.tsx:102 | the slice left after dropping only whitespace before it and after it, and which neither starts nor ends with whitespace: the longest such slice; a string without whitespace is unchanged |
| JsStrings.TrimSlice | components/dashboard/email-view-modal.tsx:102 | dropping a whitespace prefix and then a whitespace suffix leaves a slice framed by whitespace only |
| JsStrings.RemoveAll | components/dashboard/email-view-modal.tsx:102 | exactly the other characters, in order (`filter` by inequality); no occurrence remains; a string without it is unchanged |
| JsStrings.Includes | components/dashboard/dashboard-content.tsx:91-92 | true iff the needle occurs at some position |
| JsStrings.ToLower | components/dashboard/dashboard-content.tsx:89-92 | same length, each character lower-cased |
| JsStrings.UpperChar | components/dashboard/email-view-modal.tsx:103 | the upper-case form is never empty |
| JsStrings.UpperInitial | components/dashboard/email-view-modal.tsx:103 | empty iff the input is empty; otherwise the upper-case form of the first character |
| JsStrings.CaseRoundTrip | components/dashboard/email-view-modal.tsx:103 | a modelled small letter upper-cases to one different capital that lower-cases back to it |
| JsStrings.Utf16Length | components/dashboard/change-password-modal.tsx:48 | between one and two UTF-16 units per character |
| JsStrings.ReplaceChar | components/dashboard/email-view-modal.tsx:90 | a string without the separator is unchanged |
| JsStrings.ReplaceCharAppend | components/dashboard/email-view-modal.tsx:90 | replacing in a concatenation concatenates the replaced parts |
| Mail.Ids | app/api/messages/route.ts:128 | one id per message, in order |
| Wrappers.OrElse | app/api/messages/route.ts:69-71 | the value when it is truthy, otherwise the fallback |

## Left out

- External services are not modelled. Gmail, Groq, Supabase, Firebase authentication and the application's own API appear only as the outcomes their calls return, passed as parameters.
- Concurrency is not modelled. `Promise.all` over the fetches and the classifications runs sequentially in the model, one message after another. React's batched state updates are applied in program order.
- Base64 decoding, `new Date(...)` parsing, ISO and locale date formatting, and `encodeURIComponent` are parameters. Their own behaviour is not modelled.
- The system prompt text and the model parameters sent to Groq are left out. They do not affect any decision in the code.
- JavaScript `toLowerCase`/`toUpperCase` is modelled for ASCII and Latin-1 letters only. Other scripts are left unchanged by the model.
- Classification.Utf16Prefix: `substring(0, 2000)` counts UTF-16 code units. The model never cuts a character in half, whereas the source can split a surrogate pair at the limit.
- UpperInitial: `charAt(0)` returns one UTF-16 code unit, so for a name starting outside the Basic Multilingual Plane the source shows half a surrogate pair; the model takes the whole first character.
- FromInitial: takes the whole first character of the parsed name, not its first UTF-16 code unit, for the same reason as UpperInitial.
- The local time zone is a fixed offset. Daylight-saving changes are not modelled.
- TasksBoard: dnd-kit container ids are taken to be task statuses, as the source's cast takes for granted. The library's own generated ids, and drops onto non-sortable targets, are not modelled.
- TasksBoard.Board.HandleDragEnd requires that the dragged card is reported in the container of its own status. The drag library guarantees this; the source does not check it.
- SummaryCard.ActionLabel: JavaScript object prototype keys (e.g. `toString`) that `actionTextMap[...]` would also find are not modelled.
- PhishingIndicator.Band: a missing or non-numeric score is treated as no score, giving the safe variant. This matches JavaScript, where `undefined > 0.8` is false. The score is a Dafny `real`, not an IEEE double, so a score within one rounding step of 0.5 or 0.8 may compare differently from JavaScript.
- Middleware.Matched: `.` in the matcher's `favicon.ico` alternative is modelled as written, a regex wildcard that does not match line terminators. A literal dot would refuse only those paths.
- The summary card shows the deadline when it is truthy (`summary.deadline && …`), so an empty deadline string is hidden like null. The model follows the code here.
- Toasts, icons, animation, markup and the edit-summary and archive dialogs are not modelled. Only the state and the decisions behind them are.
- The email-category chart, the mock data, the signup, profile and static pages, the other API routes and the auth provider are not part of this model.
- TaskCreator.Dialog.HandleSubmit: the error a failed `toISOString` raises is represented by the message "Invalid time value". An invalid date is the only way the source's `toISOString` can throw.
