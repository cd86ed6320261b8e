# Vite-Broker back-office logic in Dafny

A model of the decision logic in a loan-broker back-office web application and of its
`retell-agent` edge function. The modelled logic covers:

- the loan progress tracker (current and next step, expand/collapse);
- the call-flow step editor;
- the search, filter and sort pipelines of the customer, call, document and provider lists;
- the 30-day credit-check freshness rule shared by the customer detail view and the credit check
  section;
- the status, label, icon and colour tables of the document, timeline and credit views;
- the grouping of a call's documents;
- the voice-agent deployment state machine of `useRetellAgent`;
- the request router of the edge function;
- the row to view-model projections of the document, customer and call data hooks.

Each source file is one Dafny module. A few shared modules hold what several views use:

- `Wrappers`: `Option`, and `Settled` for a promise that resolves or rejects.
- `Seqs`: `Array.prototype.filter` as `Seqs.Filter`, with its laws.
- `Text`: ASCII case mapping, `includes`, `trim`, `split`/`join`, decimal printing, `endsWith`
  and `indexOf`.
- `Types`: the view models of `src/types.ts`.

Component state that React handlers replace becomes a class with fields and methods. Pure
expressions become functions. Properties spanning several calls are lemmas.

Conventions:

- Timestamps are integer milliseconds, and the current time is a parameter.
- A date the source reads from an optional field is an `Option`. A missing date gives `NaN`, and
  every comparison with `NaN` is false.
- `completedDate` of a credit check also distinguishes SQL `null` from an absent value. `null`
  converts to the epoch, while `undefined` converts to `NaN`.
- Results of external services are parameters: Supabase queries, the Retell API, and
  `onProgress`/`onRequestCreditCheck`. Each outcome is either a value or an error.
- The customer date comparator computes `a - b * direction` on the two timestamps, exactly as
  written, so it is modelled that way. `CustomerList.ConsistentOrderIff` shows that it is a
  consistent order except for a descending date sort. `CustomerList.DescendingDateSortIsNotReversed`
  gives two customers that the descending date comparator ranks inconsistently. No claim of
  sortedness is made for that case.

## Model

| member | source | states |
|---|---|---|
| LoanProgressTracker.CurrentIndex | src/components/LoanProgressTracker.tsx:242 | `CurrentStep` is the step at this index: the current step is the first step in progress, or step 0 when none is |
| LoanProgressTracker.FirstInProgressFrom | src/components/LoanProgressTracker.tsx:242 | `find` stops at the first in-progress step at or after the start, and none before it is |
| LoanProgressTracker.IndexOfIdFrom | src/components/LoanProgressTracker.tsx:243 | `findIndex` gives -1 exactly when no step has the id, otherwise the first step with it |
| LoanProgressTracker.NextStepFollowsCurrent | src/components/LoanProgressTracker.tsx:242-244 | with distinct ids `NextStep` is the step after `CurrentStep`; the progress button (`ShowsProgressButton`) shows exactly when the current step is not last |
| LoanProgressTracker.NextStepNotBeyondCurrent | src/components/LoanProgressTracker.tsx:243-244 | without distinct ids, the id lookup never lands after the current step |
| LoanProgressTracker.CatalogCurrentAndNext | src/components/LoanProgressTracker.tsx:160-244 | on the seven-step catalog the current step is identity_verification and the next is document_collection |
| LoanProgressTracker.ActionDescription | src/components/LoanProgressTracker.tsx:49-66 | the default text is given exactly for ids outside the six described ones, initial_contact included |
| LoanProgressTracker.ToggleMembership | src/components/LoanProgressTracker.tsx:152-158 | `Toggle`: toggling flips the id's membership and keeps every other id's membership; an absent id is appended at the end; a present id loses all its occurrences, other ids keep their counts, and order is kept (removal distributes over concatenation) |
| LoanProgressTracker.ToggleTwiceAbsent | src/components/LoanProgressTracker.tsx:152-158 | toggling an absent id twice restores the list |
| LoanProgressTracker.ToggleTwicePresent | src/components/LoanProgressTracker.tsx:152-158 | toggling a present id twice moves it to the end |
| LoanProgressTracker.ToggleNoDuplicates | src/components/LoanProgressTracker.tsx:152-158 | one toggle keeps a duplicate-free list duplicate-free |
| LoanProgressTracker.ToggleAllNoDuplicates | src/components/LoanProgressTracker.tsx:150-158 | from the empty list every sequence of toggles leaves no duplicates |
| LoanProgressTracker.Tracker.ToggleStep | src/components/LoanProgressTracker.tsx:152-158 | the expanded list becomes the toggle of the old one, and the step's expanded state flips |
| LoanProgressTracker.Tracker.ProgressLoan | src/components/LoanProgressTracker.tsx:246-249 | the status 'progressed' is reported, unguarded |
| LoanProgressTracker.ProgressButton.HandleProgress | src/components/LoanProgressTracker.tsx:38-47 | the processing flag is cleared whether onProgress resolves or rejects; a rejection is logged, not rethrown |
| CallFlow.Merge | src/components/agent/CallFlow.tsx:48 | each field present in the update overwrites the step's field; absent fields are kept |
| CallFlow.MergeLaws | src/components/agent/CallFlow.tsx:48 | an empty update changes nothing and an update is idempotent |
| CallFlow.RemoveByIdSpec | src/components/agent/CallFlow.tsx:42-44 | `RemoveById`: no step with the id survives, other steps keep their counts, and removal distributes over concatenation |
| CallFlow.RemoveUnknownId | src/components/agent/CallFlow.tsx:42-44 | removing an unknown id leaves the list unchanged |
| CallFlow.UpdateById | src/components/agent/CallFlow.tsx:46-50 | length and order are kept and only steps with the id are merged with the update |
| CallFlow.UpdateUnknownId | src/components/agent/CallFlow.tsx:46-50 | updating an unknown id leaves the list unchanged |
| CallFlow.NewValidation | src/components/agent/CallFlow.tsx:121-126 | checking appends the type to the list, defaulting to []; unchecking drops every occurrence, keeps other counts and keeps an undefined list undefined |
| CallFlow.CheckboxFollowsChange | src/components/agent/CallFlow.tsx:120-126 | after the handler the checkbox shows what was asked for |
| CallFlow.CheckThenUncheck | src/components/agent/CallFlow.tsx:121-126 | checking then unchecking an unlisted type gives the original list, or [] for an undefined one |
| CallFlow.Editor.constructor | src/components/agent/CallFlow.tsx:13-31 | the editor starts with the three initial steps |
| CallFlow.Editor.AddStep | src/components/agent/CallFlow.tsx:33-40 | one question step (`NewStep`) is appended whose id is the decimal of the new length |
| CallFlow.Editor.RemoveStep | src/components/agent/CallFlow.tsx:42-44 | the steps become the old steps without those carrying the id |
| CallFlow.Editor.UpdateStep | src/components/agent/CallFlow.tsx:46-50 | the steps become the update-by-id of the old steps |
| CallFlow.Editor.ChangeValidation | src/components/agent/CallFlow.tsx:121-126 | the rendered step's id is updated with the list the checkbox computes |
| CallFlow.RemoveThenAdd | src/components/agent/CallFlow.tsx:13-44 | removing step 1 and adding a step gives ids 2, 3, 3: ids collide |
| CallFlow.RemoveFirstInitial | src/components/agent/CallFlow.tsx:13-44 | removing id 1 from the initial steps drops exactly the first one |
| CustomerList.FilterCustomersSpec | src/components/customers/CustomerList.tsx:26-32 | `FilterCustomers`: a customer is shown iff it is in the input and matches name or email and the status filter; the empty term with all keeps everyone |
| CustomerList.LocaleCompare | src/components/customers/CustomerList.tsx:35 | the name comparison returns -1, 0 or 1, and 0 exactly for equal names |
| CustomerList.LocaleCompareFlip | src/components/customers/CustomerList.tsx:35 | swapping the names negates the comparison |
| CustomerList.LocaleCompareTrans | src/components/customers/CustomerList.tsx:35 | the name order is transitive |
| CustomerList.CompareMeaning | src/components/customers/CustomerList.tsx:33-40 | `Compare`: ascending date sorts subtract the timestamps, descending ones add them; loans and names order in the chosen direction |
| CustomerList.ConsistentOrderIff | src/components/customers/CustomerList.tsx:33-40 | the comparator is a total preorder exactly when the sort is not a descending date sort |
| CustomerList.DescendingDateSortIsNotReversed | src/components/customers/CustomerList.tsx:36-37 | with dates 1 and 2, the descending comparator ranks each customer above the other |
| CustomerList.Insert | src/components/customers/CustomerList.tsx:33 | inserting adds exactly one element to the multiset |
| CustomerList.SortCustomers | src/components/customers/CustomerList.tsx:33-40 | the sort is a permutation of its input |
| CustomerList.InsertSorted | src/components/customers/CustomerList.tsx:33-40 | inserting into a sorted list under a consistent comparator keeps it sorted |
| CustomerList.SortCustomersSorted | src/components/customers/CustomerList.tsx:33-40 | under a consistent comparator the result is sorted |
| CustomerList.SortByStatusKeepsOrder | src/components/customers/CustomerList.tsx:39 | the status field compares all as equal, so the stable sort keeps the filtered order |
| CustomerList.ActiveLoansOrder | src/components/customers/CustomerList.tsx:34-38 | an activeLoans sort is non-decreasing ascending and non-increasing descending |
| CustomerList.FilteredAndSortedSpec | src/components/customers/CustomerList.tsx:26-40 | `FilteredAndSorted`: the shown list is a permutation of the matching customers, sorted unless the sort is a descending date sort |
| CustomerList.NextSort | src/components/customers/CustomerList.tsx:42-49 | the clicked field is selected; the current field flips the direction, another field sorts ascending |
| CustomerList.NextSortTwice | src/components/customers/CustomerList.tsx:43-44 | clicking the current field twice restores the direction |
| CustomerList.ListState.HandleSort | src/components/customers/CustomerList.tsx:42-49 | the sort state moves as NextSort says, and search and filter are unchanged |
| CallList.FilterCallsSpec | src/components/CallList.tsx:24-29 | `FilterCalls`: each matching call is kept as often as it occurs, no other is, and the filter distributes over concatenation |
| CallList.FilterCallsLaws | src/components/CallList.tsx:24-29 | the empty term with all keeps every call, and filtering is idempotent |
| CallList.FilterByStatusNarrows | src/components/CallList.tsx:24-29 | a status filter is the all filter followed by selecting that status |
| CallList.Badges | src/components/CallList.tsx:107-124 | exactly one badge is shown, the one matching the status |
| CallList.BadgesInjective | src/components/CallList.tsx:107-124 | different statuses show different badges |
| DocumentsDocumentList.FilterDocumentsSpec | src/components/documents/DocumentList.tsx:24-30 | `FilterDocuments`: a document is kept as often as it occurs iff it matches customer name or type and the filter, and the input order is kept (filtering distributes over concatenation) |
| DocumentsDocumentList.StatusFilterShowsOnlyThatStatus | src/components/documents/DocumentList.tsx:24-30 | a status filter shows exactly the matching documents of that status |
| DocumentsDocumentList.ExpiredOnlyUnderAll | src/components/documents/DocumentList.tsx:28-49 | an expired document is shown by no filter button other than all |
| DocumentsDocumentList.Label | src/components/documents/DocumentList.tsx:78-80 | `Text.SnakeToTitle`: the label has the input's length, with '_' turned to ' ' and each word's first letter upper-cased |
| DocumentsDocumentList.UploadLineOf | src/components/documents/DocumentList.tsx:92-95 | 'Pending Upload' exactly when there is no upload date, otherwise that date |
| DocumentsDocumentList.ExpiredBadgeIgnoresStatus | src/components/documents/DocumentList.tsx:98 | the expired badge (`ShowsExpiredBadge`) depends on the expiry date, not on the status |
| DocumentsDocumentList.ExpiredBadgeMonotone | src/components/documents/DocumentList.tsx:98 | once shown, the expired badge stays shown as time goes on |
| DocumentsDocumentList.RowBadges | src/components/documents/DocumentList.tsx:83-102 | Required is shown iff required; Expired iff the expiry date is before now |
| DocumentsDocumentList.StatusIconOf | src/components/documents/DocumentList.tsx:118-131 | the gray default icon is given exactly to expired |
| DocumentsDocumentList.StatusIconInjective | src/components/documents/DocumentList.tsx:118-131 | the icon tells statuses apart and ignores the AI status |
| DocumentDetail.SubmitDisabledIffWhitespace | src/components/documents/DocumentDetail.tsx:20 | the draft is blank (`IsBlank`, and so `NoteDraft.SubmitDisabled`) exactly when it is all whitespace |
| DocumentDetail.NoteDraft.Edit | src/components/documents/DocumentDetail.tsx:175 | the draft becomes the typed text |
| DocumentDetail.NoteDraft.HandleAddNote | src/components/documents/DocumentDetail.tsx:18-24 | a blank draft changes nothing; otherwise the untrimmed draft is handed on and the draft cleared |
| DocumentDetail.StatusColor | src/components/documents/DocumentDetail.tsx:26-39 | the gray default is given exactly to pending_upload and expired |
| DocumentDetail.StatusColorDistinct | src/components/documents/DocumentDetail.tsx:26-39 | the four coloured statuses get distinct colours |
| DocumentDetail.AiLabel | src/components/documents/DocumentDetail.tsx:107-111 | each AI status, and its absence, has its own fixed label |
| DocumentDetail.ExpiryEntry | src/components/documents/DocumentDetail.tsx:210-217 | the expiry entry exists iff there is an expiry date; expired iff it is before now, else upcoming |
| DocumentDetail.VerificationEntryTitle | src/components/documents/DocumentDetail.tsx:200-209 | the entry exists iff verifiedAt is set; 'Verified by AI' iff verifiedBy is ai, else 'Verified by Staff' |
| DocumentDetail.VerifiedByText | src/components/documents/DocumentDetail.tsx:129 | the verifier, or 'Not verified' when absent |
| DocumentDetail.DownloadNeedsFirstVersionUrl | src/components/documents/DocumentDetail.tsx:68 | the download link (`ShowsDownload`) is offered exactly when the first version has a non-empty file url |
| DocumentList.GroupSpec | src/components/DocumentList.tsx:10-14 | `Group`: a group holds exactly the documents of its status, as often and in the same order as in the input |
| DocumentList.GroupsPartition | src/components/DocumentList.tsx:10-14 | the three groups partition the documents and their sizes sum to the total |
| DocumentList.Heading | src/components/DocumentList.tsx:23 | the heading is the key with its first letter upper-cased |
| DocumentList.Headings | src/components/DocumentList.tsx:23 | the headings are Received, Pending and Rejected |
| DocumentList.SectionOfSpec | src/components/DocumentList.tsx:20 | a group is rendered iff some document has its status |
| DocumentList.SectionsSpec | src/components/DocumentList.tsx:20-26 | `Sections`: every rendered section is a non-empty group, and each non-empty group is rendered |
| DocumentList.RowIcons | src/components/DocumentList.tsx:41-62 | each row shows exactly one status icon, chosen by its status |
| DocumentList.DownloadsOnlyInReceived | src/components/DocumentList.tsx:41-55 | a download link appears only in the received section |
| ProviderList.FilterProvidersSpec | src/components/providers/ProviderList.tsx:14-20 | `FilterProviders`: all keeps the name matches; featured keeps the featured ones; competitive keeps those below 6.50; order is kept |
| ProviderList.EmptySearch | src/components/providers/ProviderList.tsx:14-20 | with an empty search, only the category filter applies, and all keeps every provider |
| ProviderList.FixtureFilters | src/data/providers.ts:32-156 | on the fixture, featured gives the first two providers and competitive gives all three |
| CustomerDetail.ThirtyDaysValue | src/components/customers/CustomerDetail.tsx:34 | the window is 2,592,000,000 ms |
| CustomerDetail.CanRequestCreditCheck | src/components/customers/CustomerDetail.tsx:31-34 | allowed with no check or a failed one, never while pending or in progress, and for a completed one iff it is older than 30 days |
| CustomerDetail.CanRequestMonotone | src/components/customers/CustomerDetail.tsx:31-34 | once allowed, a request stays allowed as time passes |
| CustomerDetail.CompletedCheckWaitsThirtyDays | src/components/customers/CustomerDetail.tsx:33-34 | a completed check dated t may be re-requested iff now > t + 30 days |
| CustomerDetail.CompletedCheckWithoutDate | src/components/customers/CustomerDetail.tsx:33-34 | a null date counts as the epoch; an absent one is never old enough |
| CustomerDetail.ButtonDisabledWhileCheckRuns | src/components/customers/CustomerDetail.tsx:106 | the button (`RequestButtonDisabled`) is disabled while a pending or in-progress check exists |
| CustomerDetail.RequestPanelFollowsRowScore | src/components/customers/CustomerDetail.tsx:92 | the request panel replaces the score exactly when the row's credit_score is null or 0 |
| CustomerDetail.CreditCheckRequest.HandleCreditCheck | src/components/customers/CustomerDetail.tsx:20-29 | the request is issued and the flag is cleared whether it resolves or rejects |
| CreditCheckSection.ExpiredIffRequestable | src/components/customers/CreditCheckSection.tsx:11-12 | for a completed check, expired (`IsExpired`) equals the request rule of the detail view |
| CreditCheckSection.RefreshBypassesRequestRule | src/components/customers/CreditCheckSection.tsx:21 | a fresh completed check shows Refresh (`ShowsRefresh`) while the detail view disables its request button |
| CreditCheckSection.ReportExcludesWarning | src/components/customers/CreditCheckSection.tsx:50-73 | report (`ShowsReport`) and warning icon (`ShowsWarning`) are never shown together |
| CreditCheckSection.Heading | src/components/customers/CreditCheckSection.tsx:59-61 | Report Expired, Check in Progress, or the capitalised status |
| CreditCheckSection.BannerTone | src/components/customers/CreditCheckSection.tsx:34-52 | yellow exactly when the warning shows; green exactly for a fresh completed check |
| Timeline.EventIcon | src/components/Timeline.tsx:10-23 | the clock icon exactly for system and undefined types |
| Timeline.EventLink | src/components/Timeline.tsx:25-49 | no link exactly for system and undefined types; the fixed text and section per type |
| Timeline.LinkIffOwnIcon | src/components/Timeline.tsx:100 | a link is rendered (`ShowsLink`) iff the event has its own icon, and sections tell types apart |
| Timeline.EventTone | src/components/Timeline.tsx:64-93 | blue exactly for the current event, which is also the one tagged In Progress (`ShowsInProgress`); green exactly for completed ones |
| UseRetellAgent.DeployFailure | src/hooks/useRetellAgent.ts:41-53 | nothing is thrown exactly when agent creation succeeds, the agent is active and the phone is created; otherwise the first failing call's own error is thrown (creation, then the status read, then the phone), and an inactive agent gives 'Agent failed to initialize' |
| UseRetellAgent.DeployRequests | src/hooks/useRetellAgent.ts:41-53 | the calls are CreateAgent of the prompt, then GetAgent of the created id unless creation threw, then CreatePhoneNumber of that id exactly when the agent is active |
| UseRetellAgent.RetellAgent.constructor | src/hooks/useRetellAgent.ts:13-19 | inactive, all fields null, not loading |
| UseRetellAgent.RetellAgent.DeployAgent | src/hooks/useRetellAgent.ts:22-72 | no prompt sets the fixed error without throwing; success sets active with the service's ids; failure sets error, keeps the ids and rethrows; loading ends false |
| UseRetellAgent.RetellAgent.StopAgent | src/hooks/useRetellAgent.ts:74-100 | no agent changes nothing; success resets to inactive; failure sets error and rethrows; loading ends false |
| UseRetellAgent.RedeployFailureThenStop | src/hooks/useRetellAgent.ts:22-100 | after a successful deploy, a failed redeploy keeps the old agent id, which stop then deletes |
| RetellAgentFunction.RetellRequest | supabase/functions/retell-agent/index.ts:15-42 | the call succeeds iff the service responded; failure messages start with 'RetellAI request failed: ' |
| RetellAgentFunction.JsonHeadersKeepCors | supabase/functions/retell-agent/index.ts:9-13 | JSON replies carry every CORS header |
| RetellAgentFunction.PhoneFromUrl | supabase/functions/retell-agent/index.ts:53 | a phone part exists iff the URL contains '/delete-phone/' |
| RetellAgentFunction.PhoneFromUrlRoundTrip | supabase/functions/retell-agent/index.ts:53 | a phone without '/' placed after the first separator is read back exactly: the text after the first separator up to the next one |
| RetellAgentFunction.AreaCodeAcceptedIff | supabase/functions/retell-agent/index.ts:86 | `AreaCodeAccepted`: absent, or a number printing as three characters |
| RetellAgentFunction.CreatePhoneUrlIsSuffix | supabase/functions/retell-agent/index.ts:79 | the create-phone route (`IsCreatePhoneUrl`) is exactly the URLs ending in '/create-phone' |
| RetellAgentFunction.DeletePhone | supabase/functions/retell-agent/index.ts:50-77 | the delete-phone route answers with the JSON headers, 200, 400 or 500, and makes no call when it answers 400 |
| RetellAgentFunction.CreatePhone | supabase/functions/retell-agent/index.ts:79-124 | the create-phone route answers with the JSON headers, 200, 400 or 500, and makes no call when it answers 400 |
| RetellAgentFunction.CreateLlmAndAgent | supabase/functions/retell-agent/index.ts:129-177 | the prompt route never answers 400, uses the JSON headers and makes at most two calls |
| RetellAgentFunction.DeleteAgentOrLlm | supabase/functions/retell-agent/index.ts:179-219 | the agent and LLM deletion answers with the JSON headers, 200, 400 or 500, and makes no call when it answers 400 |
| RetellAgentFunction.General | supabase/functions/retell-agent/index.ts:126-227 | the general route answers with the JSON headers, 200, 400 or 500, and makes no call when it answers 400 |
| RetellAgentFunction.Handle | supabase/functions/retell-agent/index.ts:44-240 | every reply carries the CORS headers, answers 200, 400 or 500, makes at most two API calls, and none when it answers 400 |
| RetellAgentFunction.OptionsAnsweredFirst | supabase/functions/retell-agent/index.ts:46-48 | OPTIONS is answered 'ok' with CORS headers and no call |
| RetellAgentFunction.DeletePhoneNeedsNumber | supabase/functions/retell-agent/index.ts:50-59 | nothing after '/delete-phone/' gives 400 'Phone number is required', whatever the body |
| RetellAgentFunction.DeletePhoneReply | supabase/functions/retell-agent/index.ts:62-76 | whatever the body, the number after the separator is deleted; success gives 'Phone number <phone> deleted successfully', failure 500 'Error deleting phone number: ' and the request's message |
| RetellAgentFunction.BadAreaCodeRefused | supabase/functions/retell-agent/index.ts:86-91 | a bad area code gives 400 with the fixed message and no call |
| RetellAgentFunction.CreatePhoneUnparsable | supabase/functions/retell-agent/index.ts:116-122 | an unparsable create-phone body gives 400 'Error processing request: ' and the parser's message, with no call |
| RetellAgentFunction.CreatePhoneReply | supabase/functions/retell-agent/index.ts:93-115 | an accepted area code creates one number from the body's four fields; success gives 200 with the API's data, failure 500 'Error from Retell API: ' and the message |
| RetellAgentFunction.UnparsableBodyIsEmpty | supabase/functions/retell-agent/index.ts:126 | outside the phone routes an unparsable body behaves as {} |
| RetellAgentFunction.AgentIdTakesPrecedence | supabase/functions/retell-agent/index.ts:180-194 | with an agentId only the agent is deleted; success gives 'Agent deleted successfully', failure 500 with the bare message |
| RetellAgentFunction.LlmIdDeletesLlm | supabase/functions/retell-agent/index.ts:196-210 | with an llmId and no agentId only the LLM is deleted; success gives 'LLM deleted successfully', failure 500 with the bare message |
| RetellAgentFunction.DeleteNeedsAnId | supabase/functions/retell-agent/index.ts:212-218 | without agentId and llmId the reply is 400 'Missing required field: agentId or llmId' |
| RetellAgentFunction.InvalidRequest | supabase/functions/retell-agent/index.ts:221-227 | anything not OPTIONS, DELETE, create-phone or POST with a prompt is 400 'Invalid request' |
| RetellAgentFunction.PromptCreatesLlmThenAgent | supabase/functions/retell-agent/index.ts:129-177 | a POST with a prompt creates the LLM, then an agent on its id |
| RetellAgentFunction.PromptFailureAnswersMessage | supabase/functions/retell-agent/index.ts:129-177 | a failed LLM creation gives 500 with its bare message and no agent call; a failed agent creation gives 500 with its message after both calls |
| UseDocumentData.ToDocument | src/hooks/useDocumentData.ts:51-64 | the name defaults to 'Unknown Customer', notes to []; upload date and url come from the first version (`FirstVersion`, none for a missing or empty list); id, customer id, type, status, AI status, expiry date, required and verification are passed through |
| UseDocumentData.ToDocuments | src/hooks/useDocumentData.ts:51 | the transform keeps the row count and maps each row in place |
| UseDocumentData.ToDocumentsAppend | src/hooks/useDocumentData.ts:51 | the transform distributes over concatenation, so order is kept |
| UseDocumentData.UpdateRowFor | src/hooks/useDocumentData.ts:109-115 | metadata is sent iff verification details are given |
| UseDocumentData.DocumentStore.FetchDocuments | src/hooks/useDocumentData.ts:12-73 | no organization changes nothing; rows replace the documents; an error sets the fixed message; loading ends false |
| UseDocumentData.DocumentStore.AddDocument | src/hooks/useDocumentData.ts:79-103 | no organization throws before inserting and changes nothing; otherwise a pending_upload row is inserted named by its type; an insert error is rethrown with the list state untouched; without one the refetch's rows replace the documents, or its error sets the fixed message, and loading ends false; every inserted row stays pending_upload (`AllInsertedPending`, kept by all three methods and set up by the constructor) |
| UseDocumentData.DocumentStore.UpdateDocument | src/hooks/useDocumentData.ts:105-124 | the update row is sent and its error rethrown; an error, or no organization at refetch time, leaves the list state untouched; otherwise the refetch's rows replace the documents, or its error sets the fixed message, and loading ends false |
| UseCustomerData.AvatarUrl | src/hooks/useCustomerData.ts:52 | the fallback avatar embeds the encoded name between the fixed prefix and suffix |
| UseCustomerData.FirstCreditCheck | src/hooks/useCustomerData.ts:54-62 | the first credit check row, copied field by field, or none when there are no rows |
| UseCustomerData.ToCustomer | src/hooks/useCustomerData.ts:40-63 | name from full_name, joinDate from created_at, image or avatar fallback, tags default [], first credit check; id, email, phone, address, status, last contact, loan counts and score are passed through |
| UseCustomerData.ToCustomers | src/hooks/useCustomerData.ts:40 | the transform keeps the row count and maps each row in place |
| UseCustomerData.EveryCustomerHasImage | src/hooks/useCustomerData.ts:52 | every customer gets a non-empty image URL |
| UseCustomerData.CustomerStore.FetchCustomers | src/hooks/useCustomerData.ts:12-75 | no organization changes nothing; rows replace the customers; an error sets the fixed message; loading ends false |
| UseCallData.FirstTranscript | src/hooks/useCallData.ts:55 | the first transcript when non-empty, otherwise '' |
| UseCallData.ToCallDocuments | src/hooks/useCallData.ts:62-67 | documents are mapped one to one in order, each copying name, status, required and url (`ToCallDocument`) |
| UseCallData.ToCall | src/hooks/useCallData.ts:45-70 | duration defaults to '0:00', summary and contact fields to '', loan amount to 0; nextSteps and timeline are [] |
| UseCallData.ToCalls | src/hooks/useCallData.ts:45 | the transform keeps the row count and maps each row in place |
| UseCallData.MappedCallShape | src/hooks/useCallData.ts:49-67 | a mapped call has a non-empty duration and as many documents as its rows |
| UseCallData.CallStore.FetchCalls | src/hooks/useCallData.ts:12-82 | no organization changes nothing; rows replace the calls; an error sets the fixed message; loading ends false |

## Left out

- Backend queries, authentication, realtime subscriptions and the network requests of the edge function are outside the model. Their outcomes are parameters.
- Casing is ASCII only. `toLowerCase`, `toUpperCase` and `charAt(0).toUpperCase()` are not modelled for non-ASCII letters.
- `localeCompare` is modelled as code-point lexicographic order. It is a consistent total order, but the locale collation is not modelled.
- `Array.prototype.sort` is modelled as a stable insertion sort. For the inconsistent descending date comparator, the engine's actual output order is not modelled.
- Timing is not modelled: the 2000 ms delays in the tracker and in `deployAgent`, and any interleaving of concurrent async handlers.
- Console logging is not modelled. The tracker's progress button and the credit-check request keep a log, or record of calls, of what they handed on.
- Icons, class names and other purely presentational output are only modelled as the enumerated choice between them.
- `Date` parsing of strings and `toLocaleString` are not modelled. Dates are integer milliseconds.
- `NaN` from malformed dates is not modelled. Only an absent value (`undefined`) is modelled as `NaN`.
- `encodeURIComponent` is a parameter of `UseCustomerData.ToCustomer`, and `Number(loan_amount)` is given as an optional integer.
- Provider rates are fixed-point hundredths of a percent, not floating point.
- RetellAgentFunction.AreaCodeAccepted: integer area codes only. A fractional code such as 1.5 prints as "1.5", passes the three-character check in the source, and is not modelled.
- Request bodies that parse to JSON values other than objects are not modelled. A number inside the delete-phone URL is kept as a string.
- RetellAgentFunction.Handle: its own ensures only fixes the headers and the reply shape. Each reply the source can give is stated through `Handle` by one of the route lemmas above. Delete-phone URLs in which the separator occurs twice, or the number contains `/`, are covered only by `PhoneFromUrl` itself.
- The edge function reads `RETELL_API_KEY` at start-up and throws when it is missing (supabase/functions/retell-agent/index.ts:4-7). The model assumes the key is present, since the function never starts without it.
- DocumentsDocumentList.Label: the example 'pending_upload' becomes 'Pending Upload' is not proved as a literal equation. Proving it on the literal string exceeds the solver's resource limit. The pointwise character contract implies it.
- `addComment` of the document hook is not modelled. It is a single authenticated insert followed by a refetch, and has no logic beyond the queries.
- The edge function's outer `catch` falls back to 'Unknown error occurred' for a thrown value that is not an `Error`. This fallback is not modelled, because every failure of the modelled Retell requests is an `Error` with a message.
- Document shares and extra version columns selected by the document query are not modelled. The transform does not read them.
