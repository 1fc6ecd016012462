# Admin panel core, modelled and verified in Dafny

The project models the logic of a React-Admin back office for a hiring platform. The panel's markup is left aside. The model covers:

- **Data provider** (`DataProvider`, `data_provider.dfy`): turns a resource name and an operation's parameters into one HTTP request record (verb, path relative to the API root, query map, JSON body), or hands the operation to the generic REST provider (`Base`). The header step adds `Authorization: Bearer <token>` (section 2.1 of RFC 6750) when a credential is stored.
- **Auth provider** (`AuthProvider`, `auth_provider.dfy`): a class whose one field is the stored `auth` entry. Admin-only login, logout, `checkAuth`, `checkError`, `getIdentity` and `getPermissions` read and write it.
- **Dashboard** (`Dashboard`, `dashboard.dfy`): the summary counts, the application status histogram (an imperative loop over a dictionary), the six month buckets of the trend and user-growth charts, the conversion funnel, and the CSV report builder.
- **Notifications** (`Notifications`, `notifications.dfy`): the send dialog's guards and payload, the template preview's sample data, and the sent-list cells.
- **Per-resource tables and formatters**: support tickets, users, admin applications, job posts, interview audit, rejection feedback, user feedback, and the shared status chip. Each has its lookup tables, label rules, dialog payloads and CSV exporter rows.
- **Shared helpers**: `Values` holds optional fields, JSON values and JavaScript truthiness. `Text` holds `trim`, `split`, `join`, `replace` and the `\b\w` capitalisation. `Csv` holds the quoted-cell CSV text every exporter builds.

Modelling conventions:

- Timestamps are integers. Where the panel passes a date straight to `new Date`, a missing or unparsable date is `None`: it is never inside a month bucket, and it prints as "Invalid Date". Where the panel first tests the raw field (`field ? new Date(field) : fallback`), the field is a `DateField`: `Unset` takes the fallback, while `Unparsable` is still set, so it prints "Invalid Date" or counts as reviewed.
- The calendar (the first instant of month `m`) and the locale rendering of an instant are function parameters.
- Months are consecutive integers.
- HTTP replies are parameters. A query is a map from names to already-stringified values.

## Model

| member | source | states |
|---|---|---|
| Values.Or | src/resources/adminApplications.tsx:357-359 | `x \|\| fallback` on a string field: the field when non-empty, the fallback otherwise |
| Values.OrInt | src/resources/adminApplications.tsx:364 | `x \|\| fallback` on a number field: the field when non-zero, the fallback otherwise |
| Values.Template | src/authProvider.ts:70 | interpolating a missing field prints "undefined" |
| Values.Pick | src/dataProvider.ts:427-448 | a body built from some keys of the data holds exactly those keys the data has, with the data's values |
| Values.BoolCases | src/resources/users.tsx:74-76 | an optional flag that is present is either true or false |
| Text.Trim | src/resources/notifications.tsx:432 | `trim` gives the slice of the input after its leading whitespace and before its trailing whitespace; every character outside that slice is whitespace, and the slice's ends are not |
| Text.LeadingBlanks | src/resources/notifications.tsx:432 | the whitespace a string starts with ends at the first non-whitespace character |
| Text.TrailingStart | src/resources/notifications.tsx:432 | the whitespace a string ends with begins after its last non-whitespace character |
| Text.TrimEmptyIffBlank | src/resources/notifications.tsx:432 | a string trims to "" exactly when it is all whitespace |
| Text.TrimKeeps | src/resources/jobPosts.tsx:217-221 | trimming keeps every non-whitespace character |
| Text.Split | src/resources/notifications.tsx:456 | `split` on one character gives one more piece than separators, none holding the separator |
| Text.SplitStep | src/resources/notifications.tsx:456 | a separator first starts a new empty piece; any other character joins the first piece |
| Text.JoinSplit | src/resources/notifications.tsx:456 | joining the pieces of a split with the same separator gives the string back |
| Text.JoinCons | src/Dashboard.tsx:96-100 | joining puts the separator after the first piece when more follow |
| Text.SplitAfterPiece | src/resources/notifications.tsx:456 | a separator-free piece followed by the separator splits off as the first piece |
| Text.SplitJoin | src/Dashboard.tsx:96-100 | splitting a join of separator-free pieces gives the pieces back |
| Text.SplitTrimmed | src/resources/notifications.tsx:456 | `split(",").map(trim)`: one trimmed piece per comma-separated field |
| Text.ReplaceFirst | src/resources/users.tsx:266 | `replace` with a string pattern changes only the first occurrence, and changes nothing when there is none |
| Text.ReplaceFirstRemovesOne | src/resources/supportTickets.tsx:367 | replacing the first underscore leaves exactly one underscore fewer |
| Text.ReplaceAll | src/components/shared/EnhancedChip.tsx:53 | `replace(/_/g, " ")` changes every occurrence and nothing else |
| Text.CapitalizeWords | src/components/shared/EnhancedChip.tsx:53 | `replace(/\b\w/g, upper)` upper-cases exactly the characters at word starts |
| Text.WordStartTail | src/components/shared/EnhancedChip.tsx:53 | past the first two characters, word starts of a string are those of its tail shifted by one |
| Text.CapitalizeWordsStarts | src/resources/feedback.tsx:103-105 | capitalising keeps the word starts where they were and leaves none of them lower-case |
| Text.IntToString | src/resources/adminApplications.tsx:364 | number text is digits, with a leading minus exactly for negatives and no minus elsewhere |
| Text.IntToStringValue | src/resources/adminApplications.tsx:364 | the digits of a number's text read back as its magnitude, so the text spells exactly that number |
| Text.NatToStringValue | src/dataProvider.ts:258-259 | the decimal text of a page number reads back as that number |
| Csv.QuoteCells | src/resources/adminApplications.tsx:372 | every cell is wrapped in double quotes |
| Text.Join | src/resources/adminApplications.tsx:372 | `join` puts the separator between pieces and starts with the first piece; Text.JoinSplit and Text.SplitJoin pin it as the inverse of `split` |
| Text.Quote | src/resources/adminApplications.tsx:372 | a quoted cell is the cell between two double quotes |
| Csv.RowLine | src/resources/adminApplications.tsx:372 | a data line starts with the first quoted cell and is empty for no cells; Csv.Lines and Csv.DocumentLines place it in the document |
| Csv.Document | src/resources/adminApplications.tsx:370-373 | the document starts with the header line; Csv.DocumentLines and Csv.DocumentHeader give its lines |
| Csv.Lines | src/resources/adminApplications.tsx:370-373 | the header line first, then one quoted, comma-joined line per row |
| Csv.DocumentLines | src/resources/adminApplications.tsx:370-373 | without line breaks in cells, splitting the document on newlines gives back exactly the header line and the row lines |
| Csv.DocumentHeader | src/resources/adminApplications.tsx:370-373 | whatever the cells hold, the first line is the header line and there is at least one line per row after it |
| Csv.SetDateCell | src/resources/adminApplications.tsx:366-368 | a tested date cell takes the fallback only when the raw field is unset; a set but unparsable field prints "Invalid Date", a parsed one the locale text |
| Csv.YesNo | src/resources/adminApplications.tsx:362-363 | a flag cell is "Yes" exactly when the field is truthy |
| Csv.DateCell | src/resources/adminApplications.tsx:365 | a date cell is the locale text of the instant, or "Invalid Date" when the date is missing |
| AuthProvider.LoginBody | src/authProvider.ts:9 | the login body carries the email, or the username when the email is falsy, and the password; missing values are dropped |
| AuthProvider.FullName | src/authProvider.ts:70 | the full name is first name, a space, last name |
| AuthProvider.AuthProvider.constructor | src/authProvider.ts:47 | the provider starts from whatever entry is stored |
| AuthProvider.AuthProvider.Login | src/authProvider.ts:6-39 | resolves exactly for a 2xx reply from an admin, and then stores the reply's access token and user. A non-2xx reply rejects with the status text and a non-admin user with the admin message; either rejection leaves the stored entry unchanged |
| AuthProvider.AuthProvider.Logout | src/authProvider.ts:41-44 | removes the entry and resolves |
| AuthProvider.AuthProvider.CheckAuth | src/authProvider.ts:46-49 | resolves exactly when an entry is stored |
| AuthProvider.AuthProvider.CheckError | src/authProvider.ts:51-58 | 401 and 403 remove the entry and reject; any other status resolves and keeps it |
| AuthProvider.AuthProvider.GetIdentity | src/authProvider.ts:60-76 | rejects without an entry; otherwise id, full name and avatar of the stored user |
| AuthProvider.AuthProvider.GetPermissions | src/authProvider.ts:78-86 | rejects without an entry; otherwise the stored user's type |
| AuthProvider.LoginThenPermissions | src/authProvider.ts:27-33 | after an admitted login, `checkAuth` resolves and permissions are "admin" |
| AuthProvider.RejectedLoginKeepsSession | src/authProvider.ts:15-25 | a rejected login leaves `checkAuth` answering as before |
| AuthProvider.LogoutTwice | src/authProvider.ts:41-44 | logout is idempotent and leaves no identity |
| AuthProvider.ErrorThenCheckAuth | src/authProvider.ts:51-58 | an auth error ends the session; any other error keeps it |
| DataProvider.Bearer | src/dataProvider.ts:16-18 | the credential header is "Bearer " followed by the stored token |
| DataProvider.RequestHeaders | src/dataProvider.ts:10-21 | Authorization is the bearer token when an entry is stored. Accept is added only when the caller gave no headers. Every other supplied header is kept and no other header is added |
| DataProvider.FetchOptions.PrepareHeaders | src/dataProvider.ts:10-21 | the options' headers are replaced by the prepared headers |
| DataProvider.PagedQuery | src/dataProvider.ts:31-55 | keys are page, limit, the sort keys when the route sorts, and the filter keys. Filters override same-named paging keys. Page and limit come from the parameters or the route's defaults |
| DataProvider.BuildApplicationsQuery | src/dataProvider.ts:115-133 | `minRating` never reaches the query and travels as `ratingMin`; other filters pass unchanged |
| DataProvider.BuildSentNotificationsQuery | src/dataProvider.ts:250-266 | `currentPage`/`pageLength` (25 by default) plus only the truthy `type`, `isRead` and `search` filters |
| DataProvider.GetList | src/dataProvider.ts:30-279 | every list request is a bodiless GET; the route table's resources use their paths, defaults and sorts; an unknown resource goes to the generic provider |
| DataProvider.DefaultPagination | src/dataProvider.ts:32-35 | without parameters a list asks for page 1 with 10 rows, or 25 for support tickets and feedback |
| DataProvider.GetOne | src/dataProvider.ts:282-332 | a single record is a bodiless GET whose path ends in "/" and the id |
| DataProvider.OneUnderList | src/dataProvider.ts:282-330 | a record's path is its list path followed by "/" and the id |
| DataProvider.Create | src/dataProvider.ts:335-374 | four resources POST their data; the template reset posts no body to the path of its type |
| DataProvider.ApplicationField | src/dataProvider.ts:427-448 | the field an application update targets: notes before rating before status |
| DataProvider.Update | src/dataProvider.ts:377-483 | each update is exactly one request whose body is a subset of the data. Queue items, job posts and templates are PUT whole to their record paths. An application update PATCHes only the chosen field to that field's endpoint. Unknown actions and resources go to the generic provider |
| DataProvider.UserUpdateRequests | src/dataProvider.ts:396-422 | block, unblock, delete and the eligibility check each map to their own verb, path and body |
| DataProvider.Delete | src/dataProvider.ts:486-499 | queue items and job posts are DELETEd at their update path; others go to the generic provider |
| Dashboard.CountPublished | src/Dashboard.tsx:167-169 | counts posts whose status is exactly "published": zero iff none is, all iff all are |
| Dashboard.CountActive | src/Dashboard.tsx:171-177 | counts users whose flag is exactly the given boolean |
| Dashboard.ActiveBlockedBound | src/Dashboard.tsx:171-177 | active plus blocked is at most the user count, equal exactly when every user has a flag |
| Dashboard.DashboardStats | src/Dashboard.tsx:167-187 | published is the count of posts with status exactly "published", active and blocked the counts of `isActive === true` and `=== false`, bounded by the fetched data; totals fall back to 0 |
| Dashboard.StatusOf | src/Dashboard.tsx:193 | a missing status counts as "pending" |
| Dashboard.CountStatus | src/Dashboard.tsx:190-195 | a status's count is positive exactly when some application has it |
| Dashboard.FirstSeen | src/Dashboard.tsx:198 | the histogram keys are distinct and are exactly the statuses that occur |
| Dashboard.TotalOfAppend | src/Dashboard.tsx:192-195 | one more application adds one to the total of the key it falls under |
| Dashboard.HistogramTotal | src/Dashboard.tsx:190-195 | the histogram counts sum to the number of applications |
| Dashboard.SliceTotalOf | src/Dashboard.tsx:198-202 | the slices' values sum to the counts they were built from |
| Dashboard.StatusLabel | src/Dashboard.tsx:199-201 | the first character upper-cased, every later underscore a space |
| Dashboard.TallyStep | src/Dashboard.tsx:192-195 | counting one more application adds one to its status and appends the status when it is new |
| Dashboard.Slices | src/Dashboard.tsx:198-202 | one slice per key in key order, with its label and count |
| Dashboard.TallySlices | src/Dashboard.tsx:190-202 | once all applications are counted, the slices follow first-seen order with positive counts summing to the number of applications |
| Dashboard.ApplicationsByStatus | src/Dashboard.tsx:190-202 | one slice per status in first-seen order with its label and its count; every count positive and their sum the number of applications |
| Dashboard.LastSixMonths | src/Dashboard.tsx:208-216 | six consecutive months, oldest first, ending with the current one |
| Dashboard.CountInRange | src/Dashboard.tsx:223-226 | a half-open range counts at most all dates, and none when it is empty |
| Dashboard.CountBefore | src/Dashboard.tsx:253-256 | the cumulative count is at most all dates |
| Dashboard.RangeSplit | src/Dashboard.tsx:219-239 | adjacent half-open ranges add up |
| Dashboard.BeforeSplit | src/Dashboard.tsx:242-263 | the cumulative count up to a later bound is the earlier one plus the range between |
| Dashboard.RangeWithinBefore | src/Dashboard.tsx:247-256 | a month's new users never exceed the users up to its end |
| Dashboard.JobDates | src/Dashboard.tsx:224 | the trend reads each job post's creation date |
| Dashboard.ApplicationDates | src/Dashboard.tsx:229 | the trend reads each application's date |
| Dashboard.UserDates | src/Dashboard.tsx:248 | user growth reads each user's registration date |
| Dashboard.Trend | src/Dashboard.tsx:219-239 | one point per month, each counting that month's half-open bucket |
| Dashboard.TrendAt | src/Dashboard.tsx:219-231 | one month's point carries the month and counts at most all job posts and all applications, none for an empty bucket; Dashboard.TrendCoversWindow gives what the buckets count together |
| Dashboard.TrendCoversWindow | src/Dashboard.tsx:219-239 | the buckets together count exactly the records inside the whole window |
| Dashboard.JobPostsCoverWindow | src/Dashboard.tsx:219-226 | the job-post buckets of consecutive months add up to the job posts of the whole window |
| Dashboard.ApplicationsCoverWindow | src/Dashboard.tsx:219-231 | the application buckets of consecutive months add up to the applications of the whole window |
| Dashboard.IncreasingBounds | src/Dashboard.tsx:208-216 | in an increasing calendar, every month of a window starts no earlier than the first and ends after it starts |
| Dashboard.WindowStep | src/Dashboard.tsx:208-216 | dropping the last month of a window leaves a window ending just before it |
| Dashboard.BucketsDisjoint | src/Dashboard.tsx:223-231 | a date falls into at most one month bucket |
| Dashboard.ConsecutiveValues | src/Dashboard.tsx:208-216 | consecutive months are the first month plus their index |
| Dashboard.GrowthAt | src/Dashboard.tsx:242-263 | a month's new users are at most its total users |
| Dashboard.UserGrowth | src/Dashboard.tsx:242-263 | one point per month, each with new users at most total users |
| Dashboard.GrowthCumulative | src/Dashboard.tsx:242-263 | each month's total is the previous total plus its new users, so totals never decrease |
| Dashboard.CountStatusIn | src/Dashboard.tsx:272-281 | counts applications whose status is in a set, at most all |
| Dashboard.CountStatusInMono | src/Dashboard.tsx:272-281 | a larger status set never counts fewer applications |
| Dashboard.Funnel | src/Dashboard.tsx:267-290 | six named stages; reviewed, shortlisted and hired count the applications whose status is in their sets, interviews is the total or 0, so reviewed ≥ shortlisted ≥ hired ≥ 0; job views fall back to twice the applications when no views were counted |
| Dashboard.CellOf | src/Dashboard.tsx:99 | `${row[header]}`: the row's value for the header, "undefined" when the row lacks it; Dashboard.ReportCells lays the cells out |
| Dashboard.ReportCells | src/Dashboard.tsx:99 | one cell per header for every row; missing values print "undefined" |
| Dashboard.ExportReport | src/Dashboard.tsx:93-100 | produces nothing exactly for empty data |
| Dashboard.ExportReportLines | src/Dashboard.tsx:93-100 | the header is the first row's keys and each row gives one quoted line |
| Notifications.Payload | src/resources/notifications.tsx:445-457 | the payload always has title, body, target and both channels, has role only for target "role" and user ids only for target "specific". The ids are the trimmed comma-separated fields, one more than commas |
| Notifications.SendCheck | src/resources/notifications.tsx:421-440 | guards in source order: each warning iff its guard is the first to fail; ready iff all pass, with the payload |
| Notifications.PayloadIdsFromInput | src/resources/notifications.tsx:456 | at least one id, one per split piece, none with a comma; empty entries are kept |
| Notifications.SendNotificationDialog.constructor | src/resources/notifications.tsx:405-419 | the dialog starts with the default form and no result |
| Notifications.SendNotificationDialog.SetForm | src/resources/notifications.tsx:551 | editing replaces the form and keeps the result |
| Notifications.SendNotificationDialog.HandleSend | src/resources/notifications.tsx:421-475 | a failed guard warns, sends nothing and keeps the result. Otherwise it posts the payload to the send endpoint and the result is the reply's counts |
| Notifications.SendNotificationDialog.HandleClose | src/resources/notifications.tsx:477-488 | restores the default form and clears the result |
| Notifications.SendRequest | src/resources/notifications.tsx:459-461 | a ready form becomes one POST of the payload to the send endpoint |
| Notifications.CloseResets | src/resources/notifications.tsx:477-488 | sending right after closing warns that title and body are required |
| Notifications.SampleValue | src/resources/notifications.tsx:301-307 | the five known variables get fixed samples, any other `v` gets "[v]" |
| Notifications.DefaultSampleData | src/resources/notifications.tsx:299-308 | one entry per template variable, each its sample value |
| Notifications.PreviewDialog.constructor | src/resources/notifications.tsx:289-294 | no sample data and no preview at first |
| Notifications.PreviewDialog.OnTemplate | src/resources/notifications.tsx:296-310 | a new template clears the preview and, when it lists variables, resets the sample data to their defaults |
| Notifications.BodyPreview | src/resources/notifications.tsx:889-893 | bodies longer than 50 characters show their first 50 plus "..."; others unchanged |
| Notifications.RecipientLabel | src/resources/notifications.tsx:870-875 | the user's name, else the first 8 characters of the id plus "..." |
| Notifications.TypeLabel | src/resources/notifications.tsx:881 | every underscore of the type becomes a space |
| Notifications.ReadChip | src/resources/notifications.tsx:900-901 | "completed"/"Read" exactly for read notifications, otherwise "pending"/"Unread" |
| EnhancedChip.ConfigOf | src/components/shared/EnhancedChip.tsx:26-52 | a known status has its configured colour and icon; unknown ones (and draft, archived) are grey without an icon |
| EnhancedChip.DisplayLabel | src/components/shared/EnhancedChip.tsx:53 | a non-empty label verbatim; otherwise the status with every underscore a space and every word start upper-cased |
| EnhancedChip.Render | src/components/shared/EnhancedChip.tsx:51-61 | size defaults to small; colour, icon and text as above |
| SupportTickets.StatusIcon | src/resources/supportTickets.tsx:90-103 | the four statuses have their icons; any other has none |
| SupportTickets.StatusColor | src/resources/supportTickets.tsx:105-118 | pending warning, in progress info, resolved success, anything else default |
| SupportTickets.PriorityColor | src/resources/supportTickets.tsx:120-134 | empty default, low success, medium info, high warning, urgent error, anything else default |
| SupportTickets.InitialStatus | src/resources/supportTickets.tsx:139 | the dialog starts at the ticket's status or "pending" |
| SupportTickets.InitialPriority | src/resources/supportTickets.tsx:234 | the dialog starts at the ticket's priority or "medium" |
| SupportTickets.StatusUpdate | src/resources/supportTickets.tsx:147-162 | resolving with a blank message is refused; otherwise action and status, plus the message only when non-empty |
| SupportTickets.StatusPayload | src/resources/supportTickets.tsx:155-160 | action "updateStatus" and the status, plus the message exactly when non-empty, with those values |
| SupportTickets.PriorityUpdate | src/resources/supportTickets.tsx:241-248 | only action and priority |
| SupportTickets.StatusUpdateRequest | src/resources/supportTickets.tsx:147-162 | an accepted status update PATCHes status (and the message) to the ticket's status endpoint, and a resolution always carries a non-blank message |
| SupportTickets.PriorityUpdateRequest | src/resources/supportTickets.tsx:241-248 | a priority update PATCHes only the priority to the ticket's priority endpoint |
| SupportTickets.CategoryLabel | src/resources/supportTickets.tsx:355 | "N/A" without a category; otherwise the first underscore becomes a space, every other character is unchanged, one underscore fewer |
| SupportTickets.StatusLabel | src/resources/supportTickets.tsx:367 | the first underscore becomes a space, every other character is unchanged, one underscore fewer |
| Users.Buttons | src/resources/users.tsx:74-76 | for a boolean flag exactly one of block and unblock shows; without a flag both show |
| Users.BlockPayload | src/resources/users.tsx:61-65 | action "block" and the reason, which may be empty |
| Users.UnblockPayload | src/resources/users.tsx:145-149 | action "unblock" only |
| Users.BlockUnblockRequests | src/resources/users.tsx:61-65 | block PATCHes only the reason to `/block`; unblock PATCHes `/unblock` with no body |
| Users.RoleChipStatus | src/resources/users.tsx:259-265 | admin active, job poster published, anyone else pending |
| Users.RoleChipLooks | src/resources/users.tsx:258-267 | admins and job posters get the green check chip, others the amber hourglass |
| Users.RoleLabel | src/resources/users.tsx:266 | the first underscore becomes a space, every other character is unchanged, one underscore fewer |
| Users.RoleColor | src/resources/users.tsx:373-378 | admin error, job poster primary, anyone else default |
| Users.ActiveChip | src/resources/users.tsx:275-278 | "active"/"Active" exactly for active users, otherwise "rejected"/"Blocked" |
| Users.ProfileChip | src/resources/users.tsx:284-287 | "completed"/"Complete" exactly for complete profiles, otherwise "pending"/"Incomplete" |
| AdminApplications.StatusColor | src/resources/adminApplications.tsx:317-327 | six statuses have their colours; grey exactly for any other |
| AdminApplications.FormatStatus | src/resources/adminApplications.tsx:329-339 | six statuses by name; any other unchanged |
| AdminApplications.NamedIffColoured | src/resources/adminApplications.tsx:317-339 | a status has a name exactly when it has its own colour |
| AdminApplications.ExportRow | src/resources/adminApplications.tsx:356-369 | ten cells. Missing texts are empty. A zero or missing rating gives "Not rated" and a missing interview count 0. An unset review date reads "Not reviewed"; a set but unparsable one reads "Invalid Date" |
| AdminApplications.ExportRows | src/resources/adminApplications.tsx:356 | one row of ten cells per application |
| AdminApplications.Export | src/resources/adminApplications.tsx:342-374 | the header line first, at least one line per application |
| AdminApplications.InitialNotes | src/resources/adminApplications.tsx:54 | the notes dialog starts at the notes or "" |
| AdminApplications.InitialRating | src/resources/adminApplications.tsx:133 | the rating dialog starts at the rating or 0 |
| AdminApplications.RatingChange | src/resources/adminApplications.tsx:180 | clearing the stars gives 0 |
| AdminApplications.InitialStatus | src/resources/adminApplications.tsx:217 | the status dialog starts at the status or "pending" |
| AdminApplications.EditPayload | src/resources/adminApplications.tsx:61-65 | each dialog saves exactly one field |
| AdminApplications.EditRequest | src/resources/adminApplications.tsx:224-228 | each dialog's save is one PATCH of that field alone to its endpoint |
| JobPosts.FormatEmploymentType | src/resources/jobPosts.tsx:43-53 | six types by name; any other unchanged |
| JobPosts.ExportRow | src/resources/jobPosts.tsx:69-79 | nine cells; missing texts are empty and a missing application count is 0 |
| JobPosts.ExportRows | src/resources/jobPosts.tsx:69 | one row of nine cells per job post |
| JobPosts.Export | src/resources/jobPosts.tsx:56-84 | the header line first, at least one line per job post |
| JobPosts.Location | src/resources/jobPosts.tsx:217-221 | "N/A" without a city; otherwise a trimmed line holding the comma |
| JobPosts.TrimmedFixed | src/resources/jobPosts.tsx:219-221 | trimming a trimmed line changes nothing |
| JobPosts.LocationShowsCity | src/resources/jobPosts.tsx:217-221 | every visible character of the city shows in the location |
| JobPosts.PayType | src/resources/jobPosts.tsx:300-304 | Salary before Hourly before "N/A" |
| JobPosts.JoinThree | src/resources/jobPosts.tsx:309-311 | the range text is three pieces joined by spaces |
| JobPosts.PayRange | src/resources/jobPosts.tsx:308-312 | "Not specified" exactly unless both bounds are non-zero; otherwise both amounts with the currency, "$" by default |
| JobPosts.Hours | src/resources/jobPosts.tsx:316-318 | "Not specified" exactly unless both bounds are non-zero; otherwise "min - max hrs" |
| JobPosts.PayRangeParts | src/resources/jobPosts.tsx:308-312 | with a space-free currency the range splits back into the two amounts and the dash |
| JobPosts.HoursParts | src/resources/jobPosts.tsx:316-318 | the hours split back into both numbers, the dash and the unit |
| InterviewAudit.StatusColor | src/resources/interviewAudit.tsx:50-58 | four statuses have their colours; grey exactly for any other |
| InterviewAudit.FormatStatus | src/resources/interviewAudit.tsx:60-68 | four statuses by name; any other unchanged |
| InterviewAudit.NamedIffColoured | src/resources/interviewAudit.tsx:50-68 | a status has a name exactly when it has its own colour |
| InterviewAudit.DurationCell | src/resources/interviewAudit.tsx:94 | "N/A" exactly for a zero or missing duration |
| InterviewAudit.ExportRow | src/resources/interviewAudit.tsx:86-100 | eleven cells. The job title defaults to "N/A". Has Recording follows the recording URL. Unset start and end read "Not started" and "Not ended"; set but unparsable ones read "Invalid Date" |
| InterviewAudit.ExportRows | src/resources/interviewAudit.tsx:86 | one row of eleven cells per interview |
| InterviewAudit.Export | src/resources/interviewAudit.tsx:71-105 | the header line first, at least one line per interview |
| RejectionFeedback.FormatScreeningType | src/resources/rejectionFeedback.tsx:40-49 | five types by name; any other unchanged |
| RejectionFeedback.ExportRow | src/resources/rejectionFeedback.tsx:63-71 | seven cells; name and job title default to "N/A", the reason to ""; video and audio flags follow their URLs |
| RejectionFeedback.ExportRows | src/resources/rejectionFeedback.tsx:63 | one row of seven cells per rejection |
| RejectionFeedback.Export | src/resources/rejectionFeedback.tsx:52-76 | the header line first, at least one line per rejection |
| RejectionFeedback.ScreeningChipStatus | src/resources/rejectionFeedback.tsx:137-141 | "in_review" exactly for video and audio screenings, else "pending" |
| RejectionFeedback.ScreeningChip | src/resources/rejectionFeedback.tsx:135-143 | the chip is coloured by that status and labelled with the type's name, or the status's own label without a type |
| RejectionFeedback.ListMedia | src/resources/rejectionFeedback.tsx:159-186 | a "Video" chip exactly with a video URL, an "Audio" chip exactly with an audio URL, video before audio, and "None" exactly when neither shows |
| RejectionFeedback.DetailMedia | src/resources/rejectionFeedback.tsx:281-308 | the media card shows exactly when a medium is present. The video player shows exactly with video, and the audio player only without video, so the card holds exactly one player |
| RejectionFeedback.MediaAgrees | src/resources/rejectionFeedback.tsx:159-308 | the card shows exactly when the list shows a chip; it plays the video whenever the list shows a video chip, and the audio only when audio is the list's sole chip |
| RejectionFeedback.ListReason | src/resources/rejectionFeedback.tsx:151 | the reason or "N/A" |
| RejectionFeedback.DetailReason | src/resources/rejectionFeedback.tsx:276 | the reason or "No reason provided" |
| RejectionFeedback.ReasonsAgree | src/resources/rejectionFeedback.tsx:151 | list, detail and export agree on a given reason and differ only in placeholders |
| Feedback.IconOf | src/resources/feedback.tsx:74-86 | idea, bug and comment icons for the three categories, a generic one otherwise |
| Feedback.CategoryColor | src/resources/feedback.tsx:89-100 | feature requests info, bug reports error, anything else default |
| Feedback.FormatCategory | src/resources/feedback.tsx:103-105 | only the first underscore becomes a space, later ones stay, and no word start is lower-case |
| Feedback.BugReportLabel | src/resources/feedback.tsx:103-105 | "bug_report" reads "Bug Report" |
| Feedback.FeatureRequestLabel | src/resources/feedback.tsx:103-105 | "feature_request" reads "Feature Request" |
| Feedback.GeneralFeedbackLabel | src/resources/feedback.tsx:103-105 | "general_feedback" reads "General Feedback" |
| Feedback.CategoryLabelFrom | src/resources/feedback.tsx:103-105 | two lower-case words joined by an underscore read as the two words capitalised |
| Feedback.ReplaceJoined | src/resources/feedback.tsx:103-105 | the first underscore of two words joined by one is the joining one |
| Feedback.CapitalizeTwoWords | src/resources/feedback.tsx:103-105 | two lower-case words separated by a space each get their first letter upper-cased |
| Feedback.RatingColor | src/resources/feedback.tsx:108-112 | success from 4 up, warning at 3, error below |
| Feedback.Insight | src/resources/feedback.tsx:393-398 | positive from 4 up, neutral at 3, negative below |
| Feedback.InsightMatchesColor | src/resources/feedback.tsx:393-398 | the insight sentence and the rating colour always agree |
| Feedback.ReviewChip | src/resources/feedback.tsx:199-213 | "Reviewed" in green exactly when the raw review date is set, parsable or not, otherwise "Pending" in amber |

## Left out

- HTTP itself is not modelled: `fetch`, `fetchUtils.fetchJson`, JSON parsing, the API root URL, percent-encoding of query strings and what the endpoints answer. Replies are parameters and requests are records.
- The generic REST provider that unhandled resources fall through to is a library. Such calls are modelled only as `Base`.
- The queue and applicants screens are not part of this model. Their provider branches are, as request records.
- Rendering is not modelled: React, MUI and chart markup, loading and saving flags, toasts and refresh calls, and DOM downloads of the CSV text.
- Dates: `toLocaleString`, month names and ISO file names are not modelled. The locale rendering and the calendar are parameters, and instants and months are integers.
- Numbers: ratings, durations, pay bounds and view counts are integers. The conversion-rate card and the pie chart percentages use floating point and are not modelled.
- The dashboard's four fetches (5000 rows each) and the template preview request are not modelled; their results are inputs.
- JSON `null` is not distinguished from a missing field. A present but `null` value behaves like `undefined` throughout.
- Object key order: integer-like keys, which JavaScript lists before the others, are not ordered specially. Keys inherited from `Object.prototype` (a status named "constructor") are not modelled.
- Header names are compared case-sensitively, not case-insensitively as `Headers` does.
- `isActive` is an optional boolean. Non-boolean values of the flag are not modelled.
- Whitespace and upper-casing cover ASCII only.
- Notifications.BodyPreview, Notifications.RecipientLabel: lengths and prefixes count Unicode characters, not the UTF-16 code units JavaScript's `length` and `substring` count, so a body holding characters outside the Basic Multilingual Plane is cut at a different place (the source may even split a surrogate pair).
- The CSV text does not double embedded quotes. No claim is made that it parses back to the cells.
- Csv.DocumentHeader: states only the first line and a lower bound on the line count, because a cell may itself hold line breaks. Csv.DocumentLines gives the exact lines when no cell does.
- AdminApplications.Export, JobPosts.Export, InterviewAudit.Export, RejectionFeedback.Export: likewise state the header line and the minimum line count, not every line.
- JobPosts.Location: states that the line is trimmed, holds the comma and shows the city (JobPosts.LocationShowsCity), not its exact text.
- Feedback.FormatCategory: states for each character that it is kept, became a space or was upper-cased, not which of the three happened at every position.
- Notifications.TypeLabel: states the length and that no underscore remains; the exact text is Text.ReplaceAll's contract.
- Text.Join, Csv.RowLine and Csv.Document: their own contracts state only how the text starts. The whole text is pinned by Text.JoinSplit, Text.SplitJoin, Csv.DocumentLines and Csv.DocumentHeader.
- Dashboard.CountInRange and Dashboard.CountBefore: their own contracts give only bounds. What they count is stated by Dashboard.RangeSplit, Dashboard.BeforeSplit and Dashboard.TrendCoversWindow.
- A feedback record without a category, or a support ticket without a status, makes the source's `replace` throw. Categories and statuses are plain strings here, so the model does not capture that crash.
