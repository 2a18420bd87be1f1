# AutoMind automation platform — a Dafny model of its decision logic

The platform lets a company's members run automations, such as a PDF-report workflow or the
automatic sending of payment reminders to the company's clients. Administrators manage the
automation templates and attach them to companies. The work itself runs in external n8n
workflows, which are reached through webhooks and report back through a callable Cloud
Function.

This project models the platform's core as pure Dafny functions over an explicit store, and
proves what each operation promises. The core covers:

- the three callable Cloud Functions of the backend (`validateCompanyCode`, `markProcessing`,
  `updateAutomationInstance`);
- the web client's read helpers;
- the decision logic of the pages and action components: sign-up and sign-in, the dashboard
  widgets, client management, the automation detail page, the two webhook actions and the
  admin's template and association modals.

Files and modules:

- `results.dfy` (`Results`): `Option`, `Result`, and the all-or-nothing combination
  `Promise.all` needs.
- `js_strings.dfy` (`JsStrings`): the JavaScript string operations the code relies on.
  - `trim` and its whitespace set;
  - `split`, `indexOf`, `lastIndexOf`, `startsWith`;
  - `String(n)` of an integer and `padStart(2, '0')`.
- `js_values.dfy` (`JsValues`): JavaScript values and the rules the code relies on.
  - truthiness, `== null`, `typeof … === "object"`;
  - property reads on any value, which throw on `null`/`undefined`;
  - conversion of a property key to a string.
- `store.dfy` (`Store`): the document store. It covers:
  - documents as records, and collections as sequences in listing order;
  - per-company subcollections;
  - `update`, which fails on a missing document and applies field writes, deletes and the
    server timestamp;
  - `set`, `where ==` queries and `addDoc`, which refuses `undefined` field values as the
    web SDK does by default.
- `calendar.dfy` (`Calendar`): the proleptic Gregorian UTC calendar.
  - It converts between millisecond timestamps and civil dates.
  - It parses `YYYY-MM-DD`.
- `cloud_functions.dfy` (`CloudFunctions`): the three callable functions, as transitions from
  (store, request) to (reply or `HttpsError`, store).
- `firestore_service.dfy` (`FirestoreService`): `getCompanyAutomations`,
  `findCompanyByCode`, `getCompanyAutomationDetails`.
- `auth_service.dfy` (`AuthService`), `signup_page.dfy` (`SignupPage`),
  `login_page.dfy` (`LoginPage`): account creation and the two forms.
- `dashboard.dfy` (`Dashboard`): the dashboard page. It covers:
  - the dotted-path lookup;
  - data-source values and their defaults;
  - widget population over all enabled instances;
  - the grouping the page renders.
- `manage_clients.dfy` (`ManageClients`): the client-management page. It covers:
  - the due-date conversions, which round-trip for four-digit years;
  - the table's date rendering;
  - form validation and the payloads the page writes;
  - the enable toggle.
- `automation_detail.dfy` (`AutomationDetail`): the automation detail page. It covers:
  - the first load and the live listener;
  - the result section chosen by status;
  - the result download;
  - the dispatch of the action component;
  - the feedback the actions report.
- `action_effects.dfy` (`ActionEffects`): the effect traces of the action components.
  - The page callbacks, store reads, uploads, function calls and webhook posts are listed in
    order.
  - Every run reports its outcome exactly once, at the end.
- `start_envoys.dfy` (`StartEnvoys`), `pdf_upload.dfy` (`PdfUpload`): the two action
  components.
- `admin_client_detail.dfy` (`AdminClientDetail`), `admin_manage_automations.dfy`
  (`AdminManageAutomations`): the admin's association modal with its status toggle, and the
  template modal.

Inputs from outside the program are parameters of the model:

- the server clock and the client clock;
- the answers of Firebase Auth, Storage and the webhooks;
- a failing store call;
- `JSON.parse`/`JSON.stringify`, `parseFloat`, `new URL(…).pathname`,
  `decodeURIComponent`, the ISO-8601 parser of `new Date(string)` and the `pt-BR`
  date-time formatting.

A request field of a callable function is a string in which `""` stands for "absent". The
handlers test every field by JavaScript truthiness, under which `""` and `undefined` behave
alike.

Where the project's design notes and the code disagree, the model follows the code:

- `markProcessing` deletes `resultFileUrl`, `storagePath` and `errorMessage`. It keeps
  `resultFileName` and `lastRunDetails`.
- The instance update keeps an old `errorMessage` only when the new status is exactly
  `"error"` and no message is given.
- The client update deletes `clientErrorMessage` whenever none is given.

## Model

| member | source | states |
|---|---|---|
| CloudFunctions.ValidateCompanyCode | functions/src/index.ts:25-57 | The store is never changed. An empty code is `invalid-argument` before any read. The reply names a company exactly when some company has that `accessCode`, and `not-found` comes exactly when none has. A store failure is `internal` with the failure's message as details. |
| CloudFunctions.ValidateReturnsFirstMatch | functions/src/index.ts:33-43 | With `limit(1)` the company returned is the first match in listing order. |
| CloudFunctions.MarkProcessing | functions/src/index.ts:66-86 | A missing id is `invalid-argument`. Success happens exactly when both ids are given, the store works and the instance exists. Every other failure is `internal` "Falha ao atualizar status inicial." with no details. A failed call changes nothing. |
| CloudFunctions.ProcessingPatchMeaning | functions/src/index.ts:73-79 | The update leaves status "processing", no result URL, no storage path, no error message and the server time in `lastRun`. Every other field, `resultFileName` included, is kept. |
| CloudFunctions.MarkProcessingEffect | functions/src/index.ts:70-81 | On an existing instance the call succeeds and leaves it in the processing state. No other document of the store changes. |
| CloudFunctions.MarkProcessingIdempotent | functions/src/index.ts:66-86 | Repeating a successful call at the same server time gives the same reply and the same store. |
| CloudFunctions.ClientPatch | functions/src/index.ts:123-129 | The client update always stamps `lastStatusUpdate`. It writes each channel status exactly when given. It writes the error message when given and deletes it otherwise. It touches no other field. |
| CloudFunctions.InstancePatch | functions/src/index.ts:141-149 | The instance update always writes the status. It writes `lastRun` exactly when the ISO text converts, and each result field exactly when given. The error message is written when given, deleted when not given and the status is not "error", and kept otherwise. |
| CloudFunctions.UpdateAutomationInstance | functions/src/index.ts:105-164 | Missing ids are `invalid-argument` and nothing else is. Every other failure, the "insufficient data" one included, reaches the caller as `internal`. Success comes exactly when the named client, or else the named instance with a status, exists and the store works. A failure changes nothing. |
| CloudFunctions.InsufficientDataIsInternal | functions/src/index.ts:155-163 | A request naming neither a client nor an instance status fails as `internal` with the store unchanged, because the outer `catch` rewraps the `invalid-argument` it throws. |
| CloudFunctions.ClientBranchIgnoresInstanceFields | functions/src/index.ts:117-133 | Once a client id is given, the instance fields of the request play no part in the outcome. |
| CloudFunctions.ClientPatchMeaning | functions/src/index.ts:123-131 | Applying the client update yields a record related to the old one as the client branch promises. |
| CloudFunctions.ClientUpdateEffect | functions/src/index.ts:117-133 | The client branch updates only the named client record, as promised, and replies "Status do cliente atualizado.". |
| CloudFunctions.InstancePatchMeaning | functions/src/index.ts:141-151 | Applying the instance update yields a record related to the old one as the instance branch promises. |
| CloudFunctions.InstanceUpdateEffect | functions/src/index.ts:135-153 | The instance branch updates only the named instance, as promised, and replies "Status da automação atualizado.". |
| FirestoreService.Merged | src/services/firestoreService.ts:53-56 | `{id, ...data}` carries every field of the document. Its `id` is the document id unless the data has an `id` of its own. |
| FirestoreService.GetCompanyAutomations | src/services/firestoreService.ts:29-68 | An empty company id or a store error gives `[]`. Otherwise the result holds exactly the merged instances whose `enabled` is `true`. |
| FirestoreService.GetCompanyAutomationsInOrder | src/services/firestoreService.ts:43-57 | The result keeps the listing order: it is the filtered subcollection, merged element by element. |
| FirestoreService.FindCompanyByCode | src/services/firestoreService.ts:78-113 | A found company is in the store and has that access code. An empty code or a store error gives `null`. Otherwise `null` means no company has the code. |
| FirestoreService.FindFaultLooksLikeNoMatch | src/services/firestoreService.ts:108-112 | A store error is indistinguishable from a store with no companies. |
| FirestoreService.FindAgreesWithValidate | src/services/firestoreService.ts:78-107 | The client lookup finds a company exactly when `validateCompanyCode` accepts the code, and it is the same company. |
| FirestoreService.TemplateIdOf | src/services/firestoreService.ts:150-153 | An instance names a template exactly when its `automationId` is a non-empty string. |
| FirestoreService.GetCompanyAutomationDetails | src/services/firestoreService.ts:130-179 | Empty ids, a store error or a missing instance give `null`. A result is the existing instance and the template its `automationId` names, each with its id. Without a store error, `null` means one of the two documents is missing or no template is named. |
| AuthService.UserProfile | src/services/authService.ts:47-53 | The profile holds exactly e-mail, company id, role "member" and the creation time. |
| AuthService.SignUp | src/services/authService.ts:23-72 | An unknown code throws the invalid-code error before any account exists. A failed account creation changes nothing. A created account stays even when the profile write fails. On success the profile `users/{uid}` names the found company. |
| AuthService.SignedUpUserBelongsToCompany | src/services/authService.ts:27-56 | After a successful sign-up the new user's profile has role member and names a company whose access code is the one given. No other profile changes. |
| AuthService.UnknownCodeCreatesNothing | src/services/authService.ts:27-34 | With no company for the code, nothing is created or written. |
| AuthService.FailedProfileWriteOrphansAccount | src/services/authService.ts:39-71 | A failed profile write leaves the account with no profile, because nothing is rolled back. |
| SignupPage.ValidateSignup | src/pages/SignupPage.tsx:48-57 | The checks run in the page's order: confirmation, then length (six), then a non-blank code. Each reports its own message. |
| SignupPage.AuthCodeMessage | src/pages/SignupPage.tsx:89-100 | Exactly the three known auth codes have a message. |
| SignupPage.AuthCodesUnreachableAsWritten | src/pages/SignupPage.tsx:75-101 | As written, any error with a non-empty message other than the company-code one shows the default text. |
| SignupPage.EmailInUseShowsDefaultAsWritten | src/pages/SignupPage.tsx:75-101 | As written, Firebase's e-mail-in-use error shows the generic failure text. |
| SignupPage.SignupErrorMessage | src/pages/SignupPage.tsx:75-101 | The intended choice: the company-code message when the error names it, else the known auth code's message, else the default. |
| SignupPage.ReadingsAgreeWithoutMessage | src/pages/SignupPage.tsx:77-101 | On errors without a message, the code as written and the intended reading agree. |
| SignupPage.InvalidCompanyCodeNamed | src/pages/SignupPage.tsx:78-82 | The error `signUp` throws for an unknown code is recognised and shown as is. |
| SignupPage.KnownCodeShown | src/pages/SignupPage.tsx:86-100 | A Firebase error with a known code shows that code's message, whatever its message text. |
| SignupPage.SignupErrorMessageAsWritten | src/pages/SignupPage.tsx:75-101 | As written: an error with a non-empty string message shows it only when it names the bad company code, else the default; only an error without such a message gets the auth-code mapping. |
| SignupPage.HandleSignup | src/pages/SignupPage.tsx:43-104 | A failed check shows its message and leaves the backend untouched. Otherwise `signUp` runs with the trimmed code. Success alerts and moves to `/login`. A failure shows the message the `catch` block as written chooses. |
| SignupPage.HandleSignupIntended | src/pages/SignupPage.tsx:43-104 | The same handler with the `catch` block as its comments describe it: a failure shows the intended message. |
| SignupPage.ReadingsDifferOnlyInText | src/pages/SignupPage.tsx:75-101 | The two readings write the same accounts and profiles and announce the same success. Their texts agree when the error has no message or names the bad company code. |
| SignupPage.EmailTakenShowsDefaultAsWritten | src/pages/SignupPage.tsx:78-99 | A sign-up refused because the e-mail is taken shows the generic text as written, and the e-mail-in-use text as intended. |
| SignupPage.RejectedFormCallsNothing | src/pages/SignupPage.tsx:48-57 | A rejected form gives the same outcome with any account service or store. |
| SignupPage.TrimmedCodeValidatesAlike | src/pages/SignupPage.tsx:57-64 | Trimming the code first changes neither the checks nor the code sent. |
| SignupPage.SameSubmission | src/pages/SignupPage.tsx:43-64 | Two forms that validate alike and send the same e-mail, password and trimmed code end the same way. |
| LoginPage.LoginErrorMessage | src/pages/LoginPage.tsx:54-64 | The three bad-credential codes share one message, invalid-email has its own, and everything else gets the default. |
| LoginPage.HandleLogin | src/pages/LoginPage.tsx:31-65 | An empty field is refused before `signIn`. Success moves to `/dashboard`, and failure shows the message for the error. |
| LoginPage.EmptyFieldMakesNoAttempt | src/pages/LoginPage.tsx:35-36 | An empty field gives the same outcome whatever the sign-in service would do. |
| LoginPage.UnknownUserLooksLikeWrongPassword | src/pages/LoginPage.tsx:56-61 | An unknown user and a wrong password show the same text, whatever the error message. |
| LoginPage.FailureMessages | src/pages/LoginPage.tsx:54-64 | Every failure shows one of three texts. |
| Dashboard.ResolvePathAppend | src/pages/DashboardPage.tsx:172-180 | Looking up `a` and then `b` is looking up the joined path. |
| Dashboard.UndefinedStays | src/pages/DashboardPage.tsx:175-178 | Once a lookup yields `undefined` it stays `undefined`. |
| Dashboard.ResolveIsDescend | src/pages/DashboardPage.tsx:172-180 | The `reduce` over the keys equals a front-first descent that stops at the first non-object. |
| Dashboard.NonObjectGivesUndefined | src/pages/DashboardPage.tsx:175-178 | Meeting a non-object before the last key gives `undefined`. |
| Dashboard.NestedFieldRead | src/pages/DashboardPage.tsx:172-180 | A two-key path through nested objects reads the nested field. |
| Dashboard.RawSourceValue | src/pages/DashboardPage.tsx:169-190 | A source that is not instance-specific reads `undefined`. A nullish path reads `undefined`. A non-string path throws. |
| Dashboard.SourceEntry | src/pages/DashboardPage.tsx:168-219 | A nullish source throws. The entry's key is the source name as a property key. The entry fails exactly when the raw read throws. |
| Dashboard.FoundValueIsKept | src/pages/DashboardPage.tsx:192-198 | Only `undefined` falls back to the default: a found null, `false`, `0` or `""` is shown. |
| Dashboard.MissingValueUsesDefault | src/pages/DashboardPage.tsx:185-198 | A source that is not instance-specific, or a path that finds nothing, shows the default. |
| Dashboard.DatetimeFormatting | src/pages/DashboardPage.tsx:200-218 | A timestamp reaching a datetime source is shown formatted. Any other format keeps it. |
| Dashboard.DataMap | src/pages/DashboardPage.tsx:219 | The widget data has one key per source name. Each key holds the value of its last source. |
| Dashboard.LaterSourceWins | src/pages/DashboardPage.tsx:219 | A later source with the same name overwrites an earlier one. |
| Dashboard.WidgetOf | src/pages/DashboardPage.tsx:162-231 | A nullish widget configuration, one without a `dataSources` array, or a throwing source throws; otherwise the widget is built. It carries the instance id and the template name. Its data has one key per source name, holding what the last source of that name reads from the instance. |
| Dashboard.EntriesData | src/pages/DashboardPage.tsx:168-220 | The data map has exactly the source names as keys, each holding the entry of the last source with that name. |
| Dashboard.InstanceWidgets | src/pages/DashboardPage.tsx:121-244 | No `automationId`, a missing template or no widget array gives none. A template read failure rejects. Otherwise the instance succeeds exactly when every widget entry does, with one widget per template entry, in order, each the entry built over the instance. |
| Dashboard.FlattenAppend | src/pages/DashboardPage.tsx:249-253 | `.flat()` keeps the order of the lists. |
| Dashboard.FlattenLength | src/pages/DashboardPage.tsx:249-253 | The number of widgets is the sum over the instances. |
| Dashboard.Populate | src/pages/DashboardPage.tsx:247-258 | The page is populated exactly when every instance succeeds, and then it shows their widgets joined in snapshot order. A failure is the failure of some instance. |
| Dashboard.LoadDashboard | src/pages/DashboardPage.tsx:82-277 | No company, a listener failure and a population failure each end in their message. No enabled instance gives an empty dashboard, and otherwise the populated widgets are shown. |
| Dashboard.ShownWidgetsComeFromEnabledInstances | src/pages/DashboardPage.tsx:104-136 | Every widget shown comes from an enabled instance of the company and carries its id. |
| Dashboard.ShownWidgetIsBuiltFromItsInstance | src/pages/DashboardPage.tsx:104-244 | Every widget shown is an entry of the `dashboardWidgets` of the template an enabled instance names, built over that instance. |
| Dashboard.FirstSeenKeys | src/pages/DashboardPage.tsx:306-314 | The group keys are distinct and are exactly the keys of the widgets. |
| Dashboard.GroupingIsReference | src/pages/DashboardPage.tsx:306-314 | The page's `forEach` grouping equals one group per distinct key, in order of first appearance, holding that key's widgets in order. |
| Dashboard.GroupingPartitions | src/pages/DashboardPage.tsx:306-314 | Every widget lies in exactly one, non-empty group, the one with its key, and groups hold nothing else. |
| ManageClients.FormatTimestampToDate | src/pages/ManageClientsPage.tsx:37-54 | No timestamp gives "-". A value that is not a timestamp gives "Data inválida". |
| ManageClients.DisplayNamesTheDay | src/pages/ManageClientsPage.tsx:40-45 | For a four-digit year, the cell is the two-digit day, two-digit month and year of the UTC day holding the timestamp. |
| ManageClients.EditFormDueDate | src/pages/ManageClientsPage.tsx:200-209 | The edit form's date is empty exactly when the client has none. |
| ManageClients.DueDateFromInput | src/pages/ManageClientsPage.tsx:246-256 | The text is accepted exactly when it is a date-only text of a real day. An accepted date is that day's UTC midnight. |
| ManageClients.TextRoundTrip | src/pages/ManageClientsPage.tsx:200-256 | A valid `YYYY-MM-DD` date of year 1000 or later, saved and edited again, shows the same text. |
| ManageClients.TimestampRoundTrip | src/pages/ManageClientsPage.tsx:200-256 | A stored midnight with a four-digit year, shown in the form and saved again, is the same timestamp. |
| ManageClients.OptionalText | src/pages/ManageClientsPage.tsx:261-264 | An optional text is absent exactly when blank, and otherwise trimmed and non-empty. |
| ManageClients.SubmitClient | src/pages/ManageClientsPage.tsx:231-288 | The submit is refused exactly when a required input is blank, no company is known or the date does not parse, with that order's message: required fields, then company, then invalid date. An accepted submit saves trimmed non-empty texts and the parsed date, as an update of the edited client or as a new one. |
| ManageClients.BlankOptionalBreaksAdd | src/pages/ManageClientsPage.tsx:259-287 | As written, a new client with a blank optional field is refused by the store because of `undefined`. |
| ManageClients.DataFields | src/pages/ManageClientsPage.tsx:259-266 | The payload holds the required fields, each optional field only when given, and no `undefined`. |
| ManageClients.NewClientPayload | src/pages/ManageClientsPage.tsx:279-285 | The new-client document holds no `undefined` and no delete. |
| ManageClients.UpdateClientPayload | src/pages/ManageClientsPage.tsx:269-272 | The update holds no `undefined`. |
| ManageClients.UpdateLeavesEnabled | src/pages/ManageClientsPage.tsx:268-277 | Editing a client never changes whether it is enabled. |
| ManageClients.NewClientReadsBack | src/pages/ManageClientsPage.tsx:279-287 | A new client is always accepted and appended. It reads back as submitted: enabled, with both timestamps the server time. |
| ManageClients.SaveErrorMessage | src/pages/ManageClientsPage.tsx:293 | A failed save always shows a non-empty message, the error's own when it has one. |
| ManageClients.ToggleClient | src/pages/ManageClientsPage.tsx:299-304 | Nothing happens without a company. Otherwise the client's `enabled` is negated. |
| ManageClients.ToggleTwice | src/pages/ManageClientsPage.tsx:299-304 | Toggling twice restores a boolean `enabled`. |
| AutomationDetail.FetchInitial | src/pages/AutomationDetailPage.tsx:71-99 | Missing ids give their message. Otherwise the result is the joined details, or a not-found message naming the instance. |
| AutomationDetail.StoreErrorReadsAsNotFound | src/pages/AutomationDetailPage.tsx:81-95 | A failing store shows the not-found message. The load-error text is never shown. |
| AutomationDetail.OnInstanceSnapshot | src/pages/AutomationDetailPage.tsx:117-141 | Data and error exclude each other. Without a listener failure there is data exactly when the document exists, and it is the document with its id. |
| AutomationDetail.ResultViewOf | src/pages/AutomationDetailPage.tsx:371-423 | Each view is chosen exactly by the lower-cased status. "completed" offers a download exactly when a path or URL exists. An error shows the instance's message or the default. |
| AutomationDetail.StatusCaseInsensitive | src/pages/AutomationDetailPage.tsx:371 | Lower-casing the status first changes nothing. |
| AutomationDetail.WrittenStatusesSelectViews | src/pages/AutomationDetailPage.tsx:371-423 | The statuses the functions write select the views the page expects, in any letter case. |
| AutomationDetail.ResultSection | src/pages/AutomationDetailPage.tsx:361-427 | A listener error is shown, and no instance shows "indisponível". A live instance without error always shows the result view of its fields. |
| AutomationDetail.SectionFollowsStore | src/pages/AutomationDetailPage.tsx:117-141 | The section follows the stored document: its result view when it exists, the removal message when it does not, the listener message on failure. |
| AutomationDetail.DownloadPath | src/pages/AutomationDetailPage.tsx:162-177 | `storagePath` wins. Otherwise the path comes from a URL with an `/o/` segment, and failures give no path. |
| AutomationDetail.DownloadUrlGivesObjectPath | src/pages/AutomationDetailPage.tsx:165-173 | A Storage download URL yields its decoded object path. |
| AutomationDetail.FileName | src/pages/AutomationDetailPage.tsx:179-183 | The file name is `resultFileName`, else the path's last segment, else "resultado.xlsx". |
| AutomationDetail.FileNameOfObjectPath | src/pages/AutomationDetailPage.tsx:179-183 | For `folder/name` the saved file is called `name`. |
| AutomationDetail.StorageErrorMessage | src/pages/AutomationDetailPage.tsx:201-206 | The two known Storage codes have their messages, and everything else gets the generic one. |
| AutomationDetail.HandleDownload | src/pages/AutomationDetailPage.tsx:155-210 | Without an instance or a path there is an error and no fetch. Otherwise that path is fetched and saved under the chosen name, or the code's message is shown. |
| AutomationDetail.StoragePathAlwaysFetched | src/pages/AutomationDetailPage.tsx:162-194 | When `storagePath` is set, exactly that path is fetched, whatever the URL holds. |
| AutomationDetail.ActionBlockFor | src/pages/AutomationDetailPage.tsx:212-260 | A spinner shows until both loads have data. Then each known template id gets its component, given the live instance (and the company, or the instance id), and any other template gets the info alert. |
| AutomationDetail.DispatchFollowsAutomationId | src/pages/AutomationDetailPage.tsx:228 | For loaded details, the block follows the instance's `automationId`. |
| AutomationDetail.ActionBlockFollowsStoredTemplate | src/pages/AutomationDetailPage.tsx:212-260 | Once both loads answer from the same store, the component is the one for the template the stored instance names. |
| AutomationDetail.OnAction | src/pages/AutomationDetailPage.tsx:145-153 | Start clears the message and shows the spinner. Completion hides the spinner and shows exactly the outcome. |
| AutomationDetail.LastCompletionShown | src/pages/AutomationDetailPage.tsx:145-153 | Whatever came before, a run ending with a completion shows exactly it. |
| ActionEffects.ReportShown | src/pages/AutomationDetailPage.tsx:145-153 | The callbacks of a run that reports once leave the page idle with that report. |
| ActionEffects.RestartIsHarmless | src/pages/AutomationDetailPage.tsx:145-148 | A second start report in a row changes nothing. |
| StartEnvoys.WebhookUrlIsConfigured | src/components/automations/StartEnvoysAction.tsx:33-51 | The configured URL passes the placeholder check. |
| StartEnvoys.EnabledClients | src/components/automations/StartEnvoysAction.tsx:63-65 | The query yields exactly the company's clients whose `enabled` is `true`. |
| StartEnvoys.ClientForWebhook | src/components/automations/StartEnvoysAction.tsx:70-77 | The webhook receives exactly six client fields, the file-name hint or "". |
| StartEnvoys.ClientList | src/components/automations/StartEnvoysAction.tsx:67-78 | One entry per client, in order. |
| StartEnvoys.Payload | src/components/automations/StartEnvoysAction.tsx:86-93 | The body holds exactly the user, company, instance, template, configuration and client list. |
| StartEnvoys.ReportResponse | src/components/automations/StartEnvoysAction.tsx:105-117 | Success comes exactly with a 2xx JSON reply. Any other status reports its number and text. A network failure or an unreadable JSON body reports its message, or the unknown-error text. |
| StartEnvoys.PreCheck | src/components/automations/StartEnvoysAction.tsx:44-55 | Nothing starts without company, user and configuration, and each missing one reports its message. |
| StartEnvoys.HandleStartEnvoys | src/components/automations/StartEnvoysAction.tsx:42-121 | Every press reports exactly once, at the end. A failed check reports only. Otherwise the run starts and queries the clients. A failed query reports its message, and no enabled client reports "Nenhum cliente habilitado". Otherwise the enabled clients are posted and the response is reported. |
| StartEnvoys.PostCarriesEnabledClients | src/components/automations/StartEnvoysAction.tsx:63-103 | The only post goes to the envoys URL. It carries exactly the company's enabled clients. |
| StartEnvoys.PostedIffClientsEnabled | src/components/automations/StartEnvoysAction.tsx:42-103 | The webhook is posted exactly when the checks pass, the read succeeds and some client is enabled. |
| StartEnvoys.SuccessMeansAccepted | src/components/automations/StartEnvoysAction.tsx:42-117 | Success is reported exactly when the post was made and answered 2xx with JSON. |
| StartEnvoys.PageShowsOutcome | src/components/automations/StartEnvoysAction.tsx:42-121 | After a press the page is idle and shows the run's final report. |
| PdfUpload.WebhookUrlIsConfigured | src/components/automations/PdfUploadAction.tsx:23-60 | The configured URL passes the placeholder check. |
| PdfUpload.UploadErrorMessage | src/components/automations/PdfUploadAction.tsx:121-123 | The two known Storage codes have their messages, and everything else gets the generic one. |
| PdfUpload.StoragePathNamesOwner | src/components/automations/PdfUploadAction.tsx:108-110 | The path's first three segments are "uploads", the user and the company. |
| PdfUpload.MarkCall | src/components/automations/PdfUploadAction.tsx:141-145 | A string instance id is handled by `markProcessing`. Any other id fails with the store unchanged. |
| PdfUpload.Payload | src/components/automations/PdfUploadAction.tsx:67-74 | The body holds exactly the user, company, instance, template, configuration and PDF URL. |
| PdfUpload.ReportResponse | src/components/automations/PdfUploadAction.tsx:75-90 | Success comes exactly with a 2xx status. Another status reports "Falha (Status N)", and a rejection reports its message or the fallback. |
| PdfUpload.Trigger | src/components/automations/PdfUploadAction.tsx:53-91 | The trigger starts with a start report and reports once. It posts exactly when the company and user are known. Without them it reports the webhook configuration error right after the start. |
| PdfUpload.PreCheck | src/components/automations/PdfUploadAction.tsx:93-101 | A file, a user and a company must be present, else the missing-input message. The file must be a PDF, else the not-a-PDF message. |
| PdfUpload.AfterUpload | src/components/automations/PdfUploadAction.tsx:129-166 | The steps after the upload report exactly once. The store changes only through the `markProcessing` call. A missing download URL shows and reports the URL failure. A falsy instance id reports the internal preparation error. A failed `markProcessing` shows its message or the fallback and reports it after the start-failure prefix. A successful one is followed by the trigger. |
| PdfUpload.HandleUpload | src/components/automations/PdfUploadAction.tsx:93-169 | A failed check only shows a message. Otherwise the run starts, uploads to its path and reports once. A failed upload changes nothing and reports its message. A successful upload continues with exactly the steps and store of `AfterUpload`. The store changes only through `markProcessing`. |
| PdfUpload.TriggerPosts | src/components/automations/PdfUploadAction.tsx:53-84 | With company and user known, the trigger posts the payload to the PDF webhook. |
| PdfUpload.PostedIff | src/components/automations/PdfUploadAction.tsx:93-160 | The webhook is posted exactly when the checks pass, the upload and its URL succeed and `markProcessing` succeeds. The store then is what `markProcessing` left. |
| PdfUpload.NoPostWithoutConditions | src/components/automations/PdfUploadAction.tsx:93-166 | When any check, the upload, its URL, the ids or `markProcessing` fails, no webhook post is made. |
| PdfUpload.WebhookSeesProcessingInstance | src/components/automations/PdfUploadAction.tsx:140-149 | When the webhook is posted, the instance is already in the processing state. |
| PdfUpload.SuccessMeansAccepted | src/components/automations/PdfUploadAction.tsx:75-160 | Success is reported exactly when the post was made and answered 2xx. |
| PdfUpload.PageShowsOutcome | src/components/automations/PdfUploadAction.tsx:93-169 | After a press that passes the checks, the page is idle and shows the final report. |
| PdfUpload.StartReportedTwice | src/components/automations/PdfUploadAction.tsx:54-106 | A posting run reports the start twice, then the outcome. |
| AdminClientDetail.FindTemplate | src/pages/admin/AdminClientDetailPage.tsx:110 | The found template is the first in the list with the id. Not found means no template has it. |
| AdminClientDetail.FieldSchemas | src/pages/admin/AdminClientDetailPage.tsx:112 | The field schemas are the schema object's fields; anything else lists none. |
| AdminClientDetail.SchemaDefaults | src/pages/admin/AdminClientDetailPage.tsx:111-114 | The defaults are exactly the fields whose schema defines a default (null included). A nullish field schema throws. |
| AdminClientDetail.SelectTemplate | src/pages/admin/AdminClientDetailPage.tsx:105-117 | The form holds exactly the selected template's defaults. It is empty when no template is found, the schema is not an object, or a field schema is nullish. It never holds `undefined`. |
| AdminClientDetail.ShownValue | src/pages/admin/AdminClientDetailPage.tsx:161 | A field shows its form value, else its schema default, else ""; only null and undefined fall through. |
| AdminClientDetail.Coalesce | src/pages/admin/AdminClientDetailPage.tsx:161 | `a ?? b` is `b` exactly when `a` is null or undefined. |
| AdminClientDetail.SelectionShowsDefaults | src/pages/admin/AdminClientDetailPage.tsx:161 | Selecting a template changes nothing the form shows. |
| AdminClientDetail.PrefillConfig | src/pages/admin/AdminClientDetailPage.tsx:83 | An edit starts from the instance's configuration, or `{}`. |
| AdminClientDetail.ChangeConfig | src/pages/admin/AdminClientDetailPage.tsx:119-125 | Only the input's own field changes, to the checked state, the number or the text. |
| AdminClientDetail.LastChangeWins | src/pages/admin/AdminClientDetailPage.tsx:124 | Changing the same input twice keeps the last value. |
| AdminClientDetail.SubmitAssociation | src/pages/admin/AdminClientDetailPage.tsx:127-139 | The submit is refused exactly without a template id or company. An edit keeps `enabled`, a new association is enabled, and the form's configuration is saved. |
| AdminClientDetail.EditIgnoresSelection | src/pages/admin/AdminClientDetailPage.tsx:129 | While editing, the template selection plays no part. |
| AdminClientDetail.UnchangedEditWritesBack | src/pages/admin/AdminClientDetailPage.tsx:127-134 | Saving an edit unchanged writes back the instance's own template, configuration and status. |
| AdminClientDetail.Toggle | src/pages/admin/AdminClientDetailPage.tsx:179-185 | Nothing happens without a company. Otherwise the write goes to that company and the instance's id, with `enabled` negated. |
| AdminClientDetail.ToggleFailedAlert | src/pages/admin/AdminClientDetailPage.tsx:187 | The alert is "Erro: " followed by the error's message, or by "Erro desconhecido" when it has none. |
| AdminClientDetail.ToggleTwiceRestores | src/pages/admin/AdminClientDetailPage.tsx:179-185 | Toggling again after the write restores the original status. |
| AdminManageAutomations.ParseSchema | src/pages/admin/AdminManageAutomationsPage.tsx:86-87 | A blank schema is `{}`. An accepted schema is a non-array object. Errors carry the "Schema inválido" prefix. |
| AdminManageAutomations.TemplateData | src/pages/admin/AdminManageAutomationsPage.tsx:92-97 | The data has exactly four keys and trimmed texts. A blank icon is `undefined`. |
| AdminManageAutomations.SubmitTemplate | src/pages/admin/AdminManageAutomationsPage.tsx:81-123 | A blank name or description, or a bad schema, is refused before any write. Otherwise the data is written to the edited template or a new one, and the write fails exactly with a store failure. |
| AdminManageAutomations.OpenTemplate | src/pages/admin/AdminManageAutomationsPage.tsx:56-62 | Reopening shows the texts, the string icon (or "" for none) and the schema's JSON, or `{}`. |
| AdminManageAutomations.OpenWrittenData | src/pages/admin/AdminManageAutomationsPage.tsx:56-62 | Reopening written data shows the trimmed texts and the schema's JSON. |
| AdminManageAutomations.RebuiltDataIsSame | src/pages/admin/AdminManageAutomationsPage.tsx:92-97 | Data rebuilt from a reopened form equals the original. |
| AdminManageAutomations.ReopenAndSaveIsFixpoint | src/pages/admin/AdminManageAutomationsPage.tsx:51-123 | Reopening and saving unchanged writes the same data to the same template. |
| AdminManageAutomations.RefusedWritesNothing | src/pages/admin/AdminManageAutomationsPage.tsx:85-87 | A refused submit does not depend on the store. |

## Left out

- Logging (`logger`, `console`), React rendering, loading spinners and the button-disabling
  flags: display only.
- `signIn` and `logOut` in `src/services/authService.ts:76-99` only re-throw what Firebase
  Auth throws. `LoginPage.HandleLogin` takes the service's outcome as a parameter.
- `JSON.stringify` drops keys whose value is `undefined`. Webhook payloads are modelled as the
  objects before serialisation.
- Floating point:
  - number inputs of the configuration form go through the `numberOf` parameter;
  - upload progress percentages are left out.
- The "automation disabled" alerts of the action components are display only.
- A failing `response.text()` or `response.json()` body read is modelled only as the
  `jsonFault` of the envoys action. The PDF action reads no body.
- `AutomationDetail.FetchInitial`: the page's load-error message is unreachable, because the
  service swallows store errors. `StoreErrorReadsAsNotFound` states this.
- `Dashboard.Populate`: the rejection `Promise.all` reports depends on timing. The model
  reports the first failing instance in snapshot order.
- `SignupPage.ValidateSignup`: `password.length` counts UTF-16 code units. The model counts
  characters of `string`.
- `PdfUpload.StoragePathNamesOwner` holds for ids without "/". Ids containing "/" are not
  modelled.
- `PaymentReminderSettings`, `AdminClientsPage`, `AutomationsPage`, `HomePage`, the layouts
  and route guards are display or plain CRUD glue outside the core.
- The admin service functions are not defined in the files modelled here. They are
  `associateAutomationToCompany`, `updateCompanyAutomationStatus`, `addAutomationTemplate`,
  `updateAutomationTemplate`, `listAutomationTemplates` and `updateClientEnabledStatus`. Each
  handler's result is the write it asks for, and a failing write is a parameter.
- `AdminClientDetail.PrefillConfig` and `AdminManageAutomations.OpenTemplate`: a truthy
  `config` or `configSchema` that is not a plain object is read as `{}`. The template modal
  only ever saves objects.
- `AdminManageAutomations.OpenTemplate`: a non-string template name or description is shown
  as "".
- `AdminManageAutomations.OpenTemplate`: a truthy icon that is not a string is shown as "".
- `AdminClientDetail.SelectTemplate`: an array `configSchema` is read as having no fields. The
  page would take defaults from its elements under the keys "0", "1" and so on. The template
  modal only ever saves objects.
- `ManageClients.TextRoundTrip` holds for years 1000 to 9999 only. An earlier year is
  shown with an unpadded year by `formatTimestampToDate`, so its text does not come back.
- Store error texts are shortened. The `addDoc` refusal of an `undefined` field leaves out the
  "(found in field ...)" suffix, and the missing-document text of the update function gives the
  document path without the `projects/.../databases/(default)/documents/` prefix.
- `JsValues.Prop` reads own properties only. Inherited members such as `constructor` read as
  `undefined`, and a `__proto__` source name is treated as an ordinary key.
- A template or instance id containing "/" makes `doc()` throw. The model looks such an id
  up as a missing document instead.
- `AutomationDetail.TextField`: a truthy field that is not a string (a `storagePath` or
  `errorMessage` of another type) reads as "".
- The template list reload after the admin's modal fetches templates is left out.
- `PdfUpload.MarkCall`: the callable's transport is assumed reliable. A lost connection, a
  deadline, or a handler that commits before the client sees a failure is not modelled, so
  the outcome "instance left processing, nothing posted" is not produced.
- `ManageClients.DueDateFromInput` does not model three edge cases of the browser's date
  handling. The year 0 is accepted, though `Timestamp.fromDate` refuses it. A day past the
  end of its month is rejected, though the engine may roll it over. Surrounding blanks are
  not trimmed. The page's `type="date"` input never produces any of these texts.
- `PdfUpload.HandleUpload` reports the start twice, at lines 54 and 106 of the action.
  `ActionEffects.RestartIsHarmless` shows the second report changes nothing on the page.
- `ManageClients.UpdateClientPayload`: the edit goes through `updateClientRecipient`, whose
  body is not part of this model. The update is modelled without `undefined` values.
- Time zones and the `pt-BR` locale formatting of `toLocaleString` are parameters. The
  fallback `toLocaleDateString` branch of `formatTimestampToDate` cannot be reached for a
  stored timestamp.

## Findings

| source | as written | input that shows it | evidently intended | confidence | as-written member | corrected member |
|---|---|---|---|---|---|---|
| src/pages/ManageClientsPage.tsx:259-287 | The new-client payload writes `responsible: clientResponsible.trim() \|\| undefined`, and the same for `driveFileNameHint`, into `addDoc`. The default web SDK refuses `undefined` field values. | A new client whose "responsible" input is left blank | Leave a blank optional field out of the document, so the client is added | medium, not executed | ManageClients.BlankOptionalBreaksAdd | ManageClients.NewClientReadsBack |
| src/pages/SignupPage.tsx:75-101 | The auth-code `switch` sits in the `else` of "the error has a string message". Firebase Auth errors always have a message, so the switch never runs for them. | `createUser` throws `{code: "auth/email-already-in-use", message: "Firebase: Error (auth/email-already-in-use)."}` | Show "Este endereço de e-mail já está em uso.", as the comments on lines 86-87 describe | high, not executed | SignupPage.EmailTakenShowsDefaultAsWritten | SignupPage.HandleSignupIntended |
