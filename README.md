# checkbox451_bot in Dafny

A model of the core of checkbox451_bot, a Telegram bot for a small shop
that sells through the Checkbox fiscal API (a Ukrainian cloud cash
register), reconciles cashless payments from PrivatBank and Fondy into a
Google spreadsheet, and issues a fiscal receipt for each payment.

The model is organised by the program's own files:

- `transactions.dfy` covers the shared part of the cashless sources
  (`checkbox451_bot/gsheet/common.py`). It models:
  - which fetched transactions are new;
  - how a transaction becomes receipt goods, by exact division against the
    catalogue;
  - one polling cycle as a `Processor` class: store, notify and receipt,
    with the snapshot the cycle leaves.
- `privat24.dfy` and `fondy.dfy` model the two concrete sources:
  - the PrivatBank sender pattern and record normalisation, and the
    followId pagination;
  - the Fondy request signature input, headers and paged report;
  - each source's receipt classification, and the Fondy start-up guards.
- `pb2gsheet.dfy` models the older standalone PrivatBank poller. It covers
  the comma-based sender pattern, the pydantic validators, the
  whole-record difference between two fetches and its polling cycle, as
  the `Poller` class.
- `sender_pattern.dfy` holds the greedy `^.+SEP(words)\s*$` regex
  semantics that both sender patterns share.
- `goods_parser.dfy` models the cashier's free-text order
  (`text_to_goods`). `report.dfy` models the shift report.
  `shift_close.dfy` models the scheduled shift-close orchestration, as a
  class whose outbox records what is sent to the ledger and the chat.
- `fiscal_http.dfy`, `fiscal_shift.dfy` and `fiscal_receipt.dfy` model the
  fiscal API client (`checkbox_api/`):
  - endpoints, headers and error messages;
  - the GET retry loop, post, and the signature guard;
  - shifts and receipts.
  The backend is a reply oracle: the request made as the n-th event of a
  `Session`'s trace meets `replies(n)`: a timeout, a transport error, a
  response, or a late response whose body does not arrive within the
  request's timeout. The loops are methods whose
  `ensures` tie the result and the trace to specification functions.
- `legacy_client.dfy` and `legacy_auth.dfy` model the older single-file
  client and authorisation (`checkbox451_bot/checkbox451_bot/`).
- `auth.dfy` models the newer authorisation: the sign-in mode, users and
  roles as maps in place of the database, sign-in, and the role guard,
  as the `Authority` class.
- `config.dfy`, `catalogue.dfy` and `buttons.dfy` model the small helpers.
- `json.dfy`, `odict.dfy`, `text.dfy`, `sorting.dfy`, `set_diff.dfy` and
  `wrappers.dfy` give Python's values and built-ins the meaning the code
  relies on:
  - dicts in insertion order;
  - `str()`/`repr()` of decoded JSON;
  - split, strip, lower and title;
  - stable `sorted()` and set difference;
  - the exceptions that escape.

Amounts are integers in minor units: kopiykas for prices and sums, and
thousandths for quantities. I/O (HTTP, Telegram, the spreadsheet, files),
the clock and sleeps appear as parameters or as recorded events:
- a reply oracle for each request;
- booleans for whether a store or a notification succeeds;
- a timestamp parser for dateutil.

Where the code and its evident intent differ, both are modelled: a
member for the code as written, and a corrected member with the intended
property proved about it (see "## Findings").

## Model

| member | source | states |
|---|---|---|
| Buttons.NewButton | checkbox451_bot/kbd/buttons.py:2-5 | a button's string value is its primary text, and its texts are exactly the primary text and the aliases |
| Buttons.EqualsIff | checkbox451_bot/kbd/buttons.py:7-8 | a button compares equal to a string exactly when the string is its text or one of its aliases |
| Buttons.ReceiptAnswersBoth | checkbox451_bot/kbd/buttons.py:11-13 | the receipt button answers to its emoji text and to the old text without the emoji, and not to the cancel text |
| Catalogue.Items | checkbox451_bot/goods.py:10-18 | get_items(): one entry per label, in catalogue order, the later good winning (proved in Pairs, ItemsOrder, LaterWins and ValuesFromCatalogue) |
| Catalogue.Pairs | checkbox451_bot/goods.py:11-18 | one (label, good) pair per catalogue good, in catalogue order, labelled "stripped name price грн" |
| Catalogue.Labels | checkbox451_bot/goods.py:12 | the i-th label is the label of the i-th good |
| Catalogue.ItemsOrder | checkbox451_bot/goods.py:11-18 | the dict's keys are the labels in catalogue order, each once, at its first place |
| Catalogue.LaterWins | checkbox451_bot/goods.py:11-18 | a good whose label no later good repeats is the value filed under its label |
| Catalogue.ValuesFromCatalogue | checkbox451_bot/goods.py:13-16 | every value is a catalogue good, with its code, unstripped name and price, filed under its own label |
| Config.GetValue | checkbox451_bot/config.py:14-22 | the walk's value when truthy; otherwise the default, or KeyError when required; AttributeError when the walk meets a value that is not a mapping |
| Config.Walk | checkbox451_bot/config.py:15-17 | the walk reaches a stored value and ends in an empty mapping at a missing key (proved in WalkFindsStored, WalkMissing and WalkEmpty) |
| Config.WalkFindsStored | checkbox451_bot/config.py:15-17 | a value present at the key path is what the walk reaches |
| Config.WalkMissing | checkbox451_bot/config.py:17 | a key missing at any level makes the walk end in an empty mapping, unless it fails on a non-mapping first |
| Config.WalkEmpty | checkbox451_bot/config.py:17 | walking an empty mapping along any path stays empty |
| Config.TruthyStored | checkbox451_bot/config.py:18-19 | a truthy stored value is the walk's result, and so Config.get's |
| Config.FalsyLikeMissing | checkbox451_bot/config.py:18-22 | a falsy stored value and a missing key both give a falsy walk result, so the default or KeyError |
| ShiftReport.Summarise | checkbox451_bot/handlers/helpers.py:114-131 | no report without sales; proceeds are sales minus returns; the detailed form exactly when there were returns, the short form under the no-returns header |
| ShiftReport.RightAlign | checkbox451_bot/handlers/helpers.py:121-123 | `>10` padding: the text, left-padded with spaces to width 10 |
| ShiftReport.Render | checkbox451_bot/handlers/helpers.py:114-131 | the report text: with returns, the header and the three amounts, each `>10.2f` (RightAlign states the padding); without, the header and the proceeds; given only for a report with sales (PrepareReport) |
| ShiftReport.PrepareReport | checkbox451_bot/handlers/helpers.py:114-131 | prepare_report returns None exactly when sales are zero |
| ShiftReport.SendReport | checkbox451_bot/handlers/helpers.py:134-152 | the messages send_report answers, in order (proved in SendReportShape) |
| ShiftReport.SendReportShape | checkbox451_bot/handlers/helpers.py:134-152 | one message per payment kind with sales, cash first, and the total exactly when both had sales, equal to the sum of the two proceeds |
| ShiftCloseFlow.Counter | checkbox451_bot/handlers/helpers.py:135-138 | `shift["balance"][key]` succeeds exactly when both levels are dicts holding the keys, giving the stored value; otherwise KeyError or TypeError |
| ShiftCloseFlow.ReadCounters | checkbox451_bot/handlers/helpers.py:135-138 | the four counters are read in send_report's order, and the read succeeds exactly when all four can be read |
| ShiftCloseFlow.Balances | checkbox451_bot/handlers/helpers.py:115-147 | the counters as numbers exactly when all four are numbers; a counter that cannot be read raises its read error before any conversion, and a non-number raises TypeError |
| ShiftCloseFlow.Reports | checkbox451_bot/shift_close.py:62-68 | one broadcast per report message |
| ShiftCloseFlow.ReportsHold | checkbox451_bot/shift_close.py:62-67 | the broadcasts go to the supervisors but chat_id, one per message and nothing else |
| ShiftCloseFlow.ReportsEach | checkbox451_bot/shift_close.py:62-68 | the i-th broadcast carries the i-th message |
| ShiftCloseFlow.ShiftMessages | checkbox451_bot/handlers/helpers.py:134-152 | send_report completes exactly when the four counters are numbers, with SendReport's messages; otherwise it raises Balances' error |
| ShiftCloseFlow.ShiftMessagesStopped | checkbox451_bot/handlers/helpers.py:134-147 | a send_report that raises has answered at most the cash report: nothing when a counter could not be read or a cash counter is not a number, else the cash report when there were cash sales |
| ShiftCloseFlow.Ledger | checkbox451_bot/shift_close.py:54-60 | no row for a zero profit; otherwise the title is read (its failure propagates) and today's row appended, followed by an admin alert when the append raises |
| ShiftCloseFlow.AlreadyClosed | checkbox451_bot/shift_close.py:38-42 | with no shift open the bot signs out and returns None after the one read request |
| ShiftCloseFlow.CloseFailure | checkbox451_bot/shift_close.py:44-49 | a close that raises is broadcast to the admins and returns None, with no ledger row and no report |
| ShiftCloseFlow.LedgerOnlyForProfit | checkbox451_bot/shift_close.py:54-57 | a row is appended exactly when the close returned a non-zero profit and the title could be read; it is today's date and that profit |
| ShiftCloseFlow.LedgerFailureHarmless | checkbox451_bot/shift_close.py:56-60 | a failed append only adds the admin alert: the same result and the same report follow |
| ShiftCloseFlow.ReportSent | checkbox451_bot/shift_close.py:62-70 | once the ledger step is through, the close ends with the report's broadcasts, those answered before the report raised included, and returns the profit exactly when the report completed |
| ShiftCloseFlow.Outbox.Do | checkbox451_bot/shift_close.py:19-25 | an action asked of the outside services is appended to the record |
| ShiftCloseFlow.Book | checkbox451_bot/shift_close.py:54-70 | the ledger step and the report, with the result and the actions of Closed |
| ShiftCloseFlow.Enter | checkbox451_bot/shift_close.py:54-60 | the ledger step's result is Ledger's, and its rows are the actions recorded |
| ShiftCloseFlow.Tell | checkbox451_bot/shift_close.py:62-68 | the report's messages are broadcast one by one, in order |
| ShiftCloseFlow.FlowRun | checkbox451_bot/shift_close.py:37-70 | shift_close over the replies: error, sign-out, admin alert, or the close with its ledger row and report (proved in FlowSteps, AlreadyClosed, CloseFailure, LedgerOnlyForProfit and ReportSent) |
| ShiftCloseFlow.ShiftCloseTask | checkbox451_bot/shift_close.py:36-70 | the whole scheduled close: its result, its requests and its actions are those of FlowRun |
| ShiftCloseFlow.FlowSteps | checkbox451_bot/shift_close.py:38-70 | the close per outcome of the read and of the fiscal close: error, sign-out, admin alert, or the booked rest |
| Auth.Enabled | checkbox451_bot/auth.py:35-37 | sign-in is enabled exactly in the modes ON and ONE |
| Auth.FirstWithValue | checkbox451_bot/auth.py:53 | the first mode found has the requested value; none found means no mode has it |
| Auth.Mode | checkbox451_bot/auth.py:51-56 | a mode is returned exactly for "on", "one" and "off" and carries that value; any other text raises ValueError("invalid mode") |
| Auth.ModeRoundTrip | checkbox451_bot/auth.py:30-56 | looking up a mode by its own value gives that mode back |
| Auth.WithUser | checkbox451_bot/auth.py:78-85 | add_user keeps an existing user and makes a missing one from the contact (proved in WithUserSpec) |
| Auth.WithUserSpec | checkbox451_bot/auth.py:78-85 | add_user keeps every existing user, adds the contact's id, and a new user starts with no roles |
| Auth.RoleAdded | checkbox451_bot/auth.py:99-108 | add_role rejects a name outside the three roles and otherwise adds the user to the role (proved in AddRoleRejects and AddRoleGrants) |
| Auth.AddRoleRejects | checkbox451_bot/auth.py:99-101 | add_role fails exactly for a name other than ADMIN, CASHIER and SUPERVISOR, and then changes nothing |
| Auth.AddRoleGrants | checkbox451_bot/auth.py:103-108 | a valid add_role makes the role's row and adds exactly this user to the role's holders; every other holder set is unchanged |
| Auth.AddRoleValid | checkbox451_bot/auth.py:99-108 | add_role keeps every role a user holds backed by a role row |
| Auth.SignedIn | checkbox451_bot/auth.py:111-123 | sign_in: a user exactly when sign-in is open, ONE spent, ADMIN given to a listed phone (proved in SignInGate, SignInSpendsOne, SignInRegisters and SignInKeepsOthers) |
| Auth.SignInGate | checkbox451_bot/auth.py:111-123 | sign_in returns a user exactly when sign-in is enabled or no one holds ADMIN |
| Auth.SignInRefusedKeeps | checkbox451_bot/auth.py:114 | a refused sign-in leaves a valid store unchanged |
| Auth.SignInSpendsOne | checkbox451_bot/auth.py:117-118 | an accepted sign-in in mode ONE switches to OFF; every other mode is kept |
| Auth.SignInRegisters | checkbox451_bot/auth.py:115-123 | an accepted sign-in returns the contact's stored user (the existing row, or a new one), which holds ADMIN afterwards exactly when it did before or its phone is on the admin list |
| Auth.SignInKeepsOthers | checkbox451_bot/auth.py:111-123 | sign-in adds at most the contact's id and leaves every other user unchanged |
| Auth.SignInValid | checkbox451_bot/auth.py:111-123 | sign-in keeps every role a user holds backed by a role row |
| Auth.Guard | checkbox451_bot/auth.py:59-75 | the wrapper runs the handler for a holder of the role and prompts others only while sign-in is open (proved in GuardRuns and GuardPromptsOnlyWhenSignInOpen) |
| Auth.GuardRuns | checkbox451_bot/auth.py:59-71 | the wrapper runs the handler exactly for a holder of the role; any prompt goes to the sender with the text "Потрібна авторизація" |
| Auth.GuardPromptsOnlyWhenSignInOpen | checkbox451_bot/auth.py:63-71 | the wrapper prompts exactly the users it turns away while a sign-in would be accepted |
| Auth.Guarded | checkbox451_bot/auth.py:63-66 | the wrapper's effect on the store: at most the ADMIN role's row is made (proved in GuardedKeeps) |
| Auth.GuardedKeeps | checkbox451_bot/auth.py:59-75 | the wrapper changes at most the ADMIN role's row, and the store stays valid |
| Auth.Authority.constructor | checkbox451_bot/auth.py:21-26 | the admin list is the non-empty comma-separated entries of the ADMIN variable; the store starts in mode OFF |
| Auth.Authority.SetMode | checkbox451_bot/auth.py:47-49 | SignMode.set replaces the mode and nothing else |
| Auth.Authority.GetRole | checkbox451_bot/auth.py:88-96 | get_role makes the role's row when it is missing and returns the role's holders |
| Auth.Authority.AddUser | checkbox451_bot/auth.py:78-85 | add_user returns the stored user for the contact's id, made from the contact when missing |
| Auth.Authority.AddRole | checkbox451_bot/auth.py:99-108 | add_role's new store and error are those of the RoleAdded specification |
| Auth.Authority.CheckOpen | checkbox451_bot/auth.py:114 | the sign-in condition is evaluated as the source does: the ADMIN row is read, and made, only when sign-in is disabled |
| Auth.Authority.SignIn | checkbox451_bot/auth.py:111-123 | sign_in's new store and returned user are those of the SignedIn specification |
| Auth.Authority.Require | checkbox451_bot/auth.py:59-75 | the wrapper's action and new store are those of the Guard and Guarded specifications |
| LegacyAuth.Matching | checkbox451_bot/checkbox451_bot/auth.py:43 | the roles whose list holds the phone, in iteration order (proved in MatchingSpec, MatchingInOrder and NothingMatches) |
| LegacyAuth.MatchingSpec | checkbox451_bot/checkbox451_bot/auth.py:43 | a role is matched exactly when it is one of the roles iterated and its list holds the phone |
| LegacyAuth.RankTail | checkbox451_bot/checkbox451_bot/auth.py:18 | in the role order, which has no repeats, every role after the first sits one place further than in the rest of the order |
| LegacyAuth.MatchingInOrder | checkbox451_bot/checkbox451_bot/auth.py:43 | the matched roles keep the order in which the dict is iterated |
| LegacyAuth.RolesOf | checkbox451_bot/checkbox451_bot/auth.py:39-43 | the roles of the phone without its leading "+" signs (proved in RolesOfSpec and PlusIgnored) |
| LegacyAuth.RolesOfSpec | checkbox451_bot/checkbox451_bot/auth.py:39-48 | sign_in's roles are exactly those whose list holds the phone without its leading "+" signs, in ADMIN, CASHIER, SUPERVISOR order |
| LegacyAuth.PlusIgnored | checkbox451_bot/checkbox451_bot/auth.py:40 | a leading "+" on the shared phone makes no difference to the roles matched |
| LegacyAuth.EmptyPhoneNoRole | checkbox451_bot/checkbox451_bot/auth.py:19-43 | empty entries are filtered from the lists, so a phone made only of "+" signs matches no role |
| LegacyAuth.NothingMatches | checkbox451_bot/checkbox451_bot/auth.py:43 | a phone on none of the lists matches no role |
| LegacyAuth.Registered | checkbox451_bot/checkbox451_bot/auth.py:43-44 | the contact registered with its matched roles when there are any (proved in RegisteredSpec) |
| LegacyAuth.RegisteredSpec | checkbox451_bot/checkbox451_bot/auth.py:43-44 | the contact is registered exactly when some role matched, with those roles, and no other user changes |
| LegacyAuth.Registry.constructor | checkbox451_bot/checkbox451_bot/auth.py:17-22 | _init gives each of the three roles the comma-separated entries of its variable (empty when unset), empty entries dropped; nobody is signed in |
| LegacyAuth.Registry.SignIn | checkbox451_bot/checkbox451_bot/auth.py:39-48 | sign_in returns the contact's matched roles, registers the contact with them when there are any, and keeps the role lists |
| LegacyAuth.Registry.Require | checkbox451_bot/checkbox451_bot/auth.py:28-36 | the wrapper runs the handler exactly for a signed-in user and prompts exactly everyone else |
| FiscalHttp.JoinRelative | checkbox451_bot/checkbox_api/helpers.py:35 | posixpath.join of a part without a leading slash puts exactly one separator before it |
| FiscalHttp.EndpointShape | checkbox451_bot/checkbox_api/helpers.py:34-35 | an endpoint is the API root, "api/v1", one separator and the path with its leading slashes stripped |
| FiscalHttp.EndpointLeadingSlash | checkbox451_bot/checkbox_api/helpers.py:35 | a leading slash on the path gives the same endpoint |
| FiscalHttp.Headers | checkbox451_bot/checkbox_api/helpers.py:38-52 | headers(auth, lic): the client name and version first, Authorization with the sign-in token exactly when auth is asked for, X-License-Key exactly when lic is; a failed token or licence lookup is passed on (proved in HeadersSpec) |
| FiscalHttp.HeadersSpec | checkbox451_bot/checkbox_api/helpers.py:38-52 | the headers start with the client name and version, hold Authorization exactly when auth is asked for and X-License-Key exactly when lic is, and fail only with the sign-in's or the licence lookup's error |
| FiscalHttp.RaiseOnError | checkbox451_bot/checkbox_api/helpers.py:108-122 | the exception for a failed response: the reason phrase for a body that is not JSON, otherwise the body's message, extended by ": detail" when the detail is truthy (its cases are RaiseOnErrorText and RaiseOnErrorListMessage) |
| FiscalHttp.RaiseOnErrorText | checkbox451_bot/checkbox_api/helpers.py:108-122 | a body that is not JSON raises the reason phrase; a dict without "message" raises KeyError, a body that is not a dict TypeError; a string message with a truthy detail raises "message: str(detail)", a message without a truthy detail raises str(message), a message that is neither a string nor a list with a truthy detail raises TypeError; every other exception is of the kind asked for |
| FiscalHttp.RaiseOnErrorListMessage | checkbox451_bot/checkbox_api/helpers.py:119-122 | a list message with a truthy detail is extended by one single-character string per character of ": " and str(detail), and the exception shows the extended list |
| FiscalHttp.Load | checkbox451_bot/checkbox_api/helpers.py:132 | the loader's reading of a body: its JSON value, or JSONDecodeError exactly when the body is not JSON (stated in CheckResponseCases) |
| FiscalHttp.CheckResponse | checkbox451_bot/checkbox_api/helpers.py:125-134 | an ok response gives its loaded body and a failed one raise_on_error's exception (proved in CheckResponseCases) |
| FiscalHttp.CheckResponseCases | checkbox451_bot/checkbox_api/helpers.py:125-134 | an ok response gives its loaded body (a JSON loader fails exactly when the body is not JSON); a failed response gives raise_on_error's exception |
| FiscalHttp.RaiseForStatus | checkbox451_bot/checkbox_api/helpers.py:137-152 | an ok response is returned; a failed one raises the HTTP status error, unless its JSON body has no "message" and the lookup's error escapes first |
| FiscalHttp.LogLineAsWritten | checkbox451_bot/checkbox_api/helpers.py:149 | the log line as written: the whole concatenation under one conditional, so without a detail the line is empty (proved in LogLineLosesMessage) |
| FiscalHttp.LogLineLosesMessage | checkbox451_bot/checkbox_api/helpers.py:149 | as written, a line without a detail is empty although the message is not |
| FiscalHttp.LogLine | checkbox451_bot/checkbox_api/helpers.py:147-150 | the intended log line starts with the message and adds ": detail" exactly when there is a non-empty detail |
| FiscalHttp.Tries | checkbox451_bot/checkbox_api/helpers.py:67-82 | k failed attempts are 2k events: a request and the pause after it |
| FiscalHttp.RetryLoopSettles | checkbox451_bot/checkbox_api/helpers.py:67-82 | the loop ends at the first attempt that ends it, after the failed attempts before it and their pauses |
| FiscalHttp.Retry | checkbox451_bot/checkbox_api/helpers.py:55-87 | get_retry over the replies: the first attempt that ends the loop gives the result, and six failed attempts raise for the last response held, a late one included, or the timeout (proved in RetrySettles, RetryGivesUp, RetryLateGivesReason, RetryBounded and RetryOk) |
| FiscalHttp.RetrySettles | checkbox451_bot/checkbox_api/helpers.py:55-87 | get_retry gives what the first attempt that ends its loop gives (the checked body of a response below 500, or that attempt's error), after one request and pause per earlier attempt |
| FiscalHttp.RetryLoopGivesUp | checkbox451_bot/checkbox_api/helpers.py:67-82 | when no attempt ends the loop, all six are spent and the last response received is kept, also an ok one whose body read timed out or a late one of 500 or more, and a timeout when no response came |
| FiscalHttp.LastAnswerTimedOut | checkbox451_bot/checkbox_api/helpers.py:69-80 | attempts that time out before a response leave `response` bound to what it was |
| FiscalHttp.RetryGivesUp | checkbox451_bot/checkbox_api/helpers.py:84-87 | after six attempts that do not end the loop (timeouts, answers of 500 or more, late ok answers whose body read timed out), get_retry raises raise_on_error's exception for the last response held, or the timeout when none came: the initial "Невідома помилка" is never raised |
| FiscalHttp.RetryLateGivesReason | checkbox451_bot/checkbox_api/helpers.py:67-87 | a late response that does not end the loop stays bound through later timeouts, and get_retry then raises the API error with its reason phrase, since raise_on_error cannot read its body |
| FiscalHttp.RetryLoopBounded | checkbox451_bot/checkbox_api/helpers.py:67 | the loop makes at least one and at most six requests, all to the path, with a pause after each failed one |
| FiscalHttp.RetryBounded | checkbox451_bot/checkbox_api/helpers.py:55-87 | get_retry makes at most 12 events, requests to the path alternating with pauses, and at least one request |
| FiscalHttp.RetryLoopEndsAtLast | checkbox451_bot/checkbox_api/helpers.py:74-78 | a loop that ends by an attempt ends by the reply to its last request |
| FiscalHttp.RetryOk | checkbox451_bot/checkbox_api/helpers.py:75-132 | a result get_retry returns comes from an ok response to its last request |
| FiscalHttp.Unread | checkbox451_bot/checkbox_api/helpers.py:108-115 | a response whose body never arrived reads as not JSON, keeping its status and reason, so raise_on_error falls back to the reason phrase |
| FiscalHttp.PostResult | checkbox451_bot/checkbox_api/helpers.py:90-105 | post returns the JSON body exactly for an ok response with a JSON body; a failed response gives raise_on_error's exception, a timeout or a transport error that error; a late ok response the timeout, and a late failed one the API error with the reason phrase |
| FiscalHttp.SignState | checkbox451_bot/checkbox_api/helpers.py:155-163 | check_sign reads a body that is not JSON as False, passes every other error on, and otherwise returns the body's "online" |
| FiscalHttp.SignGate | checkbox451_bot/checkbox_api/helpers.py:166-171 | require_sign lets the call through exactly when check_sign returned a truthy value; otherwise check_sign's error, or CheckboxSignError("Підпис недоступний") |
| FiscalHttp.SignedOnlyWhenOnline | checkbox451_bot/checkbox_api/helpers.py:155-171 | the guard lets a call through only when the check's last request met an ok JSON response with a truthy "online" |
| FiscalHttp.Session.constructor | checkbox451_bot/checkbox_api/helpers.py:22-31 | a session starts with no events and answers request n with reply n |
| FiscalHttp.Session.Request | checkbox451_bot/checkbox_api/helpers.py:69-74 | one request appends its event and meets the next reply |
| FiscalHttp.Session.Sleep | checkbox451_bot/checkbox_api/helpers.py:82 | a pause appends one Pause event |
| FiscalHttp.Session.GetRetry | checkbox451_bot/checkbox_api/helpers.py:55-87 | the loop's result and events are those of the Retry specification, the held response included |
| FiscalHttp.Session.PostJson | checkbox451_bot/checkbox_api/helpers.py:90-105 | one POST event and the result PostResult gives for its reply |
| FiscalHttp.Session.RequireSign | checkbox451_bot/checkbox_api/helpers.py:155-171 | check_sign's events, and the stop SignGate gives for its result |
| FiscalShift.Checked | checkbox451_bot/checkbox_api/shift.py:24-25 | a response through raise_for_status and read as JSON (its cases are CheckedCases) |
| FiscalShift.CheckedCases | checkbox451_bot/checkbox_api/shift.py:23-25 | a request's body passes exactly for an ok response with a JSON body; a failed response gives raise_for_status's exception, a timeout or transport error that error; a late body the timeout when ok and the status error otherwise |
| FiscalShift.Rebrand | checkbox451_bot/checkbox_api/shift.py:33-83 | only aiohttp's HTTP status error is replaced by the operation's own failure; every other outcome passes unchanged |
| FiscalShift.Amount | checkbox451_bot/checkbox_api/shift.py:66 | a number is used as it is, a bool as 0 or 1, and anything else raises TypeError (also shift.py:114, shift.py:127) |
| FiscalShift.BalanceOfNumber | checkbox451_bot/checkbox_api/shift.py:65 | a shift whose balance holds the number n under the key reads as n |
| FiscalShift.Judge | checkbox451_bot/checkbox_api/shift.py:43-50 | one poll iteration: a body that is not JSON goes round again, and only the transport and the test raise (proved in JudgeCases) |
| FiscalShift.JudgeCases | checkbox451_bot/checkbox_api/shift.py:42-50 | a poll iteration returns only a JSON body that passed its test; a body that is not JSON goes round again; only the transport, a late body's timeout and the test raise (also shift.py:95-101, shift.py:130-138) |
| FiscalShift.PollFromSettles | checkbox451_bot/checkbox_api/shift.py:41-52 | the poll settles at its first iteration that does not go round again, after the earlier requests and their pauses |
| FiscalShift.PollFromGivesUp | checkbox451_bot/checkbox_api/shift.py:41-55 | iterations that all go round again end in the poll's failure after all its requests and pauses |
| FiscalShift.Poll | checkbox451_bot/checkbox_api/shift.py:41-55 | a poll over the replies: it settles at its first settling iteration, at most limit requests each with a pause, and raises its failure when none settles (proved in PollSettles, PollGivesUp, PollBounded and PollFound) |
| FiscalShift.PollSettles | checkbox451_bot/checkbox_api/shift.py:41-52 | the poll returns or raises what its first settling iteration gives |
| FiscalShift.PollGivesUp | checkbox451_bot/checkbox_api/shift.py:41-55 | when no iteration settles, the poll makes limit requests each followed by a pause and raises its failure |
| FiscalShift.PollFromBounded | checkbox451_bot/checkbox_api/shift.py:41-52 | at most limit requests, all to the path, with a pause after each unsettled one; a result other than the failure comes from the last request |
| FiscalShift.PollBounded | checkbox451_bot/checkbox_api/shift.py:41-55 | the whole poll makes at most 2·limit events in that shape |
| FiscalShift.PollFound | checkbox451_bot/checkbox_api/shift.py:48-50 | a body the poll returns is the body of the reply to its last request, and it passed the test |
| FiscalShift.IdOf | checkbox451_bot/checkbox_api/shift.py:39 | the created body's "id", or the request's error first (also shift.py:87, shift.py:126) |
| FiscalShift.OpenShiftRefused | checkbox451_bot/checkbox_api/shift.py:32-36 | a refused open request raises "Не вдалось відкрити зміну" and nothing more is sent, unless a JSON body without "message" makes raise_for_status fail first |
| FiscalShift.OpenShiftOpens | checkbox451_bot/checkbox_api/shift.py:39-50 | once the shift is created, open_shift returns its id at the first poll that reads it OPENED, within ten polls |
| FiscalShift.OpenShiftUnsigned | checkbox451_bot/checkbox_api/shift.py:41-55 | when ten polls never read OPENED, open_shift raises "Не вдалось підписати зміну" after ten requests and pauses |
| FiscalShift.Due | checkbox451_bot/checkbox_api/shift.py:60-65 | service_out passes on current_shift's error, raises "Зміна закрита" for no shift, and otherwise reads the shift's balance |
| FiscalShift.ServiceOutClosed | checkbox451_bot/checkbox_api/shift.py:60-63 | without an open shift service_out raises "Зміна закрита" after its one request |
| FiscalShift.ServiceOutPays | checkbox451_bot/checkbox_api/shift.py:65-79 | a balance of zero or less sends nothing more; a positive one is followed by the cash-out of minus that balance |
| FiscalShift.PayOutReceipt | checkbox451_bot/checkbox_api/shift.py:85-101 | a receipt id the cash-out returns is the "id" of the receipt it posted |
| FiscalShift.PayOutSigned | checkbox451_bot/checkbox_api/shift.py:90-106 | the cash-out returns only at a poll that read its receipt DONE, within ten polls |
| FiscalShift.BalanceDue | checkbox451_bot/checkbox_api/shift.py:110-114 | shift_balance passes on the request's error, gives None without a shift, and otherwise the shift's balance in kopiykas |
| FiscalShift.ClosedBalance | checkbox451_bot/checkbox_api/shift.py:122-127 | the close response must have an "id", then its balance's service_out is read |
| FiscalShift.ShiftCloseUnsigned | checkbox451_bot/checkbox_api/shift.py:117-120 | without a signature nothing is sent after the check (also checkbox451_bot/checkbox_api/helpers.py:166-171) |
| FiscalShift.ShiftCloseSteps | checkbox451_bot/checkbox_api/shift.py:117-143 | shift_close is the signature check, then service_out, then the close request and its poll; each step's error stops it |
| FiscalShift.ServiceOutKeepsOpen | checkbox451_bot/checkbox_api/shift.py:58-106 | service_out sends no close request |
| FiscalShift.ShiftCloseOrder | checkbox451_bot/checkbox_api/shift.py:117-122 | the close request is sent only after the signature check passed and service_out completed |
| FiscalShift.CloseReturns | checkbox451_bot/checkbox_api/shift.py:122-143 | a balance shift_close returns is the close response's service_out, returned once the current shift read null, within sixty polls |
| FiscalShift.PollShift | checkbox451_bot/checkbox_api/shift.py:41-55 | the loop's result and events are those of the Poll specification |
| FiscalShift.CurrentShift | checkbox451_bot/checkbox_api/shift.py:21-27 | one GET of the current shift and its checked body |
| FiscalShift.OpenShiftRun | checkbox451_bot/checkbox_api/shift.py:30-55 | open_shift over the replies: a refused open raises "Не вдалось відкрити зміну", a created shift's id is returned at the first poll that reads it OPENED, and ten polls without it raise "Не вдалось підписати зміну" (proved in OpenShiftRefused, OpenShiftOpens and OpenShiftUnsigned) |
| FiscalShift.OpenShift | checkbox451_bot/checkbox_api/shift.py:30-55 | open_shift's result and events are those of the OpenShiftRun specification |
| FiscalShift.PayOutRun | checkbox451_bot/checkbox_api/shift.py:69-106 | the cash-out over the replies: the posted receipt's id, returned only once a poll read it DONE (proved in PayOutReceipt and PayOutSigned) |
| FiscalShift.PayOut | checkbox451_bot/checkbox_api/shift.py:75-106 | the cash-out's result and events are those of the PayOutRun specification |
| FiscalShift.ServiceOutRun | checkbox451_bot/checkbox_api/shift.py:58-106 | service_out over the replies: "Зміна закрита" without a shift, nothing more for a balance of zero or less, the cash-out of minus a positive balance (proved in ServiceOutClosed and ServiceOutPays) |
| FiscalShift.ServiceOut | checkbox451_bot/checkbox_api/shift.py:58-106 | service_out's result and events are those of the ServiceOutRun specification |
| FiscalShift.ShiftBalance | checkbox451_bot/checkbox_api/shift.py:109-114 | one GET of the current shift and the balance BalanceDue reads from it |
| FiscalShift.CloseRun | checkbox451_bot/checkbox_api/shift.py:122-143 | the close request and its poll: the close response's service_out once the shift reads null, within sixty polls (proved in ClosedBalance and CloseReturns) |
| FiscalShift.CloseAndWait | checkbox451_bot/checkbox_api/shift.py:122-143 | the close request and poll give the result and events of the CloseRun specification |
| FiscalShift.ShiftCloseRun | checkbox451_bot/checkbox_api/shift.py:117-143 | shift_close over the replies: the signature check, service_out, then the close, each step's error stopping it (proved in ShiftCloseSteps, ShiftCloseOrder and ShiftCloseUnsigned) |
| FiscalShift.ShiftClose | checkbox451_bot/checkbox_api/shift.py:117-143 | shift_close's result and events are those of the ShiftCloseRun specification |
| FiscalReceipt.Good.constructor | checkbox451_bot/checkbox_api/receipt.py:20-29 | a good dict holds its code, name, price and, when present, its quantity |
| FiscalReceipt.FirstRepeat | checkbox451_bot/checkbox_api/receipt.py:23-29 | the first position whose dict object already appeared earlier in the list, none exactly when all are distinct |
| FiscalReceipt.FirstRepeatAt | checkbox451_bot/checkbox_api/receipt.py:26-28 | a repeat after distinct dicts is the first repeat |
| FiscalReceipt.Total | checkbox451_bot/checkbox_api/receipt.py:21 | the payment sum fails with KeyError exactly when some dict has no quantity |
| FiscalReceipt.LinesAt | checkbox451_bot/checkbox_api/receipt.py:23-29 | the i-th receipt line is the i-th good with the quantity it had |
| FiscalReceipt.PaymentIsLinesTotal | checkbox451_bot/checkbox_api/receipt.py:21-35 | the payment equals the total of the receipt's lines |
| FiscalReceipt.ReceiptBody | checkbox451_bot/checkbox_api/receipt.py:21-36 | create_receipt's body, or KeyError while building it: one line per good and the one payment (proved in ReceiptBodyCases and PaymentIsLinesTotal) |
| FiscalReceipt.ReceiptBodyCases | checkbox451_bot/checkbox_api/receipt.py:21-36 | the body is built exactly when every dict has its quantity and none appears twice (else KeyError); it has one line per good and one CASHLESS or CASH payment of the lines' total |
| FiscalReceipt.Reach | checkbox451_bot/checkbox_api/receipt.py:26-28 | the pops reach at most the end of the list |
| FiscalReceipt.Popped | checkbox451_bot/checkbox_api/receipt.py:21-28 | create_receipt pops at most every dict before it posts or fails |
| FiscalReceipt.PopLines | checkbox451_bot/checkbox_api/receipt.py:23-29 | the lines are the goods with their quantities exactly when no dict repeats (else KeyError), and every dict reached loses its quantity while the rest keep theirs |
| FiscalReceipt.CreateRun | checkbox451_bot/checkbox_api/receipt.py:19-44 | create_receipt over the replies: KeyError before any request when the body cannot be built, otherwise one sale post whose reply's "id" is returned (proved in CreateReceipt and SellReturnsId) |
| FiscalReceipt.CreateReceipt | checkbox451_bot/checkbox_api/receipt.py:19-44 | create_receipt's result and events are those of CreateRun on the body built before any pop, and the dicts it reached lose their quantities |
| FiscalReceipt.Signed | checkbox451_bot/checkbox_api/receipt.py:57-61 | one poll's reading: signed exactly at status DONE or SIGNED with a tax_url, which is returned (proved in SignedCases) |
| FiscalReceipt.SignedCases | checkbox451_bot/checkbox_api/receipt.py:57-61 | a receipt counts as signed exactly when its status is DONE or SIGNED and it has a tax_url, which is returned; a body that is not JSON and any other status go round again; other errors escape |
| FiscalReceipt.WaitStep | checkbox451_bot/checkbox_api/receipt.py:50-63 | an unsettled iteration is its get_retry, a pause, then the rest of the wait |
| FiscalReceipt.WaitStop | checkbox451_bot/checkbox_api/receipt.py:50-61 | a settling iteration ends the wait with what it found or raised |
| FiscalReceipt.WaitGoesOn | checkbox451_bot/checkbox_api/receipt.py:50-63 | the wait after done events and one more unsettled iteration continues after those events and a pause |
| FiscalReceipt.WaitSettles | checkbox451_bot/checkbox_api/receipt.py:50-61 | the wait after done events ends at a settling iteration |
| FiscalReceipt.WaitFound | checkbox451_bot/checkbox_api/receipt.py:60-61 | a tax_url the wait returns came from a get_retry that found the receipt signed, and whose events end the wait |
| FiscalReceipt.WaitGivesUp | checkbox451_bot/checkbox_api/receipt.py:50-66 | when no receipt is signed the wait raises "Не вдалось підписати чек" after a request and a pause for each remaining iteration |
| FiscalReceipt.WaitFromBounded | checkbox451_bot/checkbox_api/receipt.py:50 | iterations of get_retry calls of at most twelve events take at most thirteen events each |
| FiscalReceipt.WaitBounded | checkbox451_bot/checkbox_api/receipt.py:47-66 | a wait takes at most 130 events |
| FiscalReceipt.Fetched | checkbox451_bot/checkbox_api/receipt.py:52-56 | one get_retry call's result and events |
| FiscalReceipt.WaitFor | checkbox451_bot/checkbox_api/receipt.py:50-66 | the loop's result and events are those of the WaitFrom specification |
| FiscalReceipt.WaitRun | checkbox451_bot/checkbox_api/receipt.py:47-66 | wait_receipt_sign over the replies: a tax_url only from a get_retry that found the receipt signed; otherwise "Не вдалось підписати чек" after ten iterations, at most 130 events (proved in WaitFound, WaitGivesUp and WaitBounded) |
| FiscalReceipt.WaitReceiptSign | checkbox451_bot/checkbox_api/receipt.py:47-66 | wait_receipt_sign's result and events are those of WaitRun |
| FiscalReceipt.FirstId | checkbox451_bot/checkbox_api/receipt.py:146-153 | a failed search passes its error on |
| FiscalReceipt.FirstIdCases | checkbox451_bot/checkbox_api/receipt.py:146-153 | a search returns an id exactly when "results" is a non-empty list whose first hit has that "id", and None exactly when "results" is falsy |
| FiscalReceipt.SearchOnlySearches | checkbox451_bot/checkbox_api/receipt.py:144-153 | a search sends only the search request and pauses, at most six requests, and an id it returns comes from an ok JSON response to its last request |
| FiscalReceipt.SearchRun | checkbox451_bot/checkbox_api/receipt.py:144-153 | search_receipt over the replies: the first hit's id, None for no hits, and only search requests and pauses (proved in FirstIdCases and SearchOnlySearches) |
| FiscalReceipt.SearchReceipt | checkbox451_bot/checkbox_api/receipt.py:144-153 | search_receipt's result and events are those of SearchRun |
| FiscalReceipt.ExtraFromFetches | checkbox451_bot/checkbox_api/receipt.py:103-112 | with receipt_as_image only the PNG path is requested and no text is returned; otherwise the QR code first, the text only after the QR code was read, and both are returned |
| FiscalReceipt.FetchingOnly | checkbox451_bot/checkbox_api/receipt.py:69-100 | every get_retry call of a path requests that path only |
| FiscalReceipt.ExtraFetches | checkbox451_bot/checkbox_api/receipt.py:69-112 | get_receipt_extra's requests and result on the receipt's PNG, QR-code and text paths, as in ExtraFromFetches |
| FiscalReceipt.ExtraFor | checkbox451_bot/checkbox_api/receipt.py:103-112 | the result and events of ExtraFrom on the given paths |
| FiscalReceipt.ExtraRun | checkbox451_bot/checkbox_api/receipt.py:103-112 | get_receipt_extra over the replies: the PNG alone with receipt_as_image, else the QR code then the text (proved in ExtraFetches and ExtraFromFetches) |
| FiscalReceipt.GetReceiptExtra | checkbox451_bot/checkbox_api/receipt.py:103-112 | get_receipt_extra's result and events are those of ExtraRun |
| FiscalReceipt.DataHoldsReceipt | checkbox451_bot/checkbox_api/receipt.py:132-141 | the receipt data holds the receipt's own body, read first, then the image and text get_receipt_extra fetched |
| FiscalReceipt.DataRun | checkbox451_bot/checkbox_api/receipt.py:132-141 | get_receipt_data over the replies: the receipt's body first, then what get_receipt_extra fetched (proved in DataHoldsReceipt) |
| FiscalReceipt.DataFor | checkbox451_bot/checkbox_api/receipt.py:132-141 | get_receipt_data on given paths: the receipt's get_retry, then get_receipt_extra, each error stopping it, as DataFrom gives |
| FiscalReceipt.GetReceiptData | checkbox451_bot/checkbox_api/receipt.py:132-141 | get_receipt_data's result and events are those of DataRun |
| FiscalReceipt.QuantityGuard | checkbox451_bot/checkbox_api/receipt.py:120-121 | the quantity check: it passes exactly when every quantity is positive, and from a dict without a quantity KeyError (proved in QuantityGuardCases) |
| FiscalReceipt.QuantityGuardCases | checkbox451_bot/checkbox_api/receipt.py:120-121 | the quantity check passes exactly when every quantity is positive, and raises KeyError exactly at a dict without a quantity met before any non-positive one |
| FiscalReceipt.Guard | checkbox451_bot/checkbox_api/receipt.py:118-121 | the goods checks: a non-positive price reported first, then the quantities (proved in GuardCases) |
| FiscalReceipt.GuardCases | checkbox451_bot/checkbox_api/receipt.py:118-121 | the goods pass exactly when every price and quantity is positive; a non-positive price is reported first; KeyError only for a missing quantity met first; goods that pass have a total |
| FiscalReceipt.ShiftReadySellsNothing | checkbox451_bot/checkbox_api/receipt.py:123-124 | making sure a shift is open sends no sale |
| FiscalReceipt.SignSellsNothing | checkbox451_bot/checkbox_api/receipt.py:115-116 | the signature check sends no sale and opens no shift |
| FiscalReceipt.SellPostsOnlyValid | checkbox451_bot/checkbox_api/receipt.py:115-128 | a sale is posted only after the signature, the goods and the shift checks passed, and it is the receipt built from the goods |
| FiscalReceipt.SellReturnsId | checkbox451_bot/checkbox_api/receipt.py:126-129 | the id sell returns is the "id" of the response to the sale, its last request (also receipt.py:38-44) |
| FiscalReceipt.SellOpensWhenClosed | checkbox451_bot/checkbox_api/receipt.py:123-124 | sell opens a shift exactly when the signature and goods checks passed and the current shift read as falsy |
| FiscalReceipt.OpenAndCreateOpens | checkbox451_bot/checkbox_api/receipt.py:123-124 | past its checks, sell opens a shift exactly when the current shift reads as falsy |
| FiscalReceipt.SellSteps | checkbox451_bot/checkbox_api/receipt.py:115-129 | sell is the signature check, the goods checks, then making the shift ready and create_receipt; each step's error stops it |
| FiscalReceipt.ShiftReady | checkbox451_bot/checkbox_api/receipt.py:123-124 | the result and events of ShiftReadyRun |
| FiscalReceipt.OpenAndCreate | checkbox451_bot/checkbox_api/receipt.py:123-128 | the result and events of OpenAndCreateRun, and the goods lose their quantities only when create_receipt is reached |
| FiscalReceipt.SellRun | checkbox451_bot/checkbox_api/receipt.py:115-129 | sell over the replies: a sale is posted only after the signature, goods and shift checks pass, a shift is opened exactly when none reads as open, and the id is the sale reply's (proved in SellPostsOnlyValid, SellOpensWhenClosed, SellReturnsId and SellSteps) |
| FiscalReceipt.Sell | checkbox451_bot/checkbox_api/receipt.py:115-129 | sell's result and events are those of SellRun, and the goods lose their quantities only when create_receipt is reached |
| LegacyClient.StatusChecked | checkbox451_bot/checkbox451_bot/checkbox_api.py:99-114 | the older raise_for_status returns an ok response unchanged and otherwise raises the HTTP status error, whatever the body held |
| LegacyClient.StatusCheckedAgrees | checkbox451_bot/checkbox451_bot/checkbox_api.py:99-114 | the older raise_for_status agrees with the newer one exactly when the newer one does not trip over a JSON body without "message" |
| LegacyClient.Read | checkbox451_bot/checkbox451_bot/checkbox_api.py:117-122 | a response read through raise_for_status: its JSON body exactly when it is ok and JSON; the status error when it failed; a decode error for an ok body that is not JSON |
| LegacyClient.Posted | checkbox451_bot/checkbox451_bot/checkbox_api.py:86-88 | a post's reply read: transport errors escape and a refused post raises the caller's failure (proved in PostedCases) |
| LegacyClient.PostedCases | checkbox451_bot/checkbox451_bot/checkbox_api.py:86-88 | a post raises the transport's exceptions, a late body's timeout, a refused post the caller's failure (or the status error when there is none), and an accepted post is read as any response is (also checkbox_api.py:126-131, checkbox_api.py:167-173) |
| LegacyClient.GetsSnoc | checkbox451_bot/checkbox451_bot/checkbox_api.py:67-75 | one more attempt appends one more request |
| LegacyClient.GetsOnly | checkbox451_bot/checkbox451_bot/checkbox_api.py:69-75 | the legacy get's requests are all to the one path |
| LegacyClient.GetAsWrittenFrom | checkbox451_bot/checkbox451_bot/checkbox_api.py:62-83 | the get as written: an exception from the block is caught as a failed attempt and ends in RuntimeError (proved in BlockErrorBecomesRuntime) |
| LegacyClient.BlockErrorBecomesRuntime | checkbox451_bot/checkbox451_bot/checkbox_api.py:62-83 | as written, an exception from the caller's block on the first response is caught as a failed attempt, the request is sent again and RuntimeError escapes |
| LegacyClient.Fetch | checkbox451_bot/checkbox451_bot/checkbox_api.py:62-83 | the get as intended: one to six requests to the path, and the block's outcome on the first response (proved in BlockErrorEscapes, FetchFromSettles, FetchShape and FetchAgrees) |
| LegacyClient.BlockErrorEscapes | checkbox451_bot/checkbox451_bot/checkbox_api.py:62-83 | as intended, an exception from the block escapes as itself after the one request |
| LegacyClient.Blocked | checkbox451_bot/checkbox451_bot/checkbox_api.py:117-121 | the block on a response; a late body makes it raise the timeout, so it returns only on a response whose body arrived (also checkbox_api.py:136-147, checkbox_api.py:183-192, checkbox_api.py:262-268) |
| LegacyClient.FetchAgrees | checkbox451_bot/checkbox451_bot/checkbox_api.py:62-83 | for a block that never raises on the responses met, the get as written and as intended are the same |
| LegacyClient.FetchFromSettles | checkbox451_bot/checkbox451_bot/checkbox_api.py:67-81 | the first attempt that meets a response, late or not, settles the get with the block's outcome, after one request per attempt so far |
| LegacyClient.FetchFromGivesUp | checkbox451_bot/checkbox451_bot/checkbox_api.py:76-83 | six requests without a response: the last one's exception is raised |
| LegacyClient.FetchFromShape | checkbox451_bot/checkbox451_bot/checkbox_api.py:67 | a get sends one to six requests to the path and nothing else |
| LegacyClient.FetchShape | checkbox451_bot/checkbox451_bot/checkbox_api.py:62-83 | the whole get sends one to six requests to the path |
| LegacyClient.FetchFromAnswered | checkbox451_bot/checkbox451_bot/checkbox_api.py:74-75 | what a get returns, its block returned on a response to one of its requests |
| LegacyClient.GetWith | checkbox451_bot/checkbox451_bot/checkbox_api.py:62-83 | the retry loop's result and events are those of the Fetch specification |
| LegacyClient.Fetched | checkbox451_bot/checkbox451_bot/checkbox_api.py:118 | one get's result and events (also checkbox_api.py:136, checkbox_api.py:183) |
| LegacyClient.WatchGoesOn | checkbox451_bot/checkbox451_bot/checkbox_api.py:135-192 | an iteration that goes round again continues after its get and a pause |
| LegacyClient.WatchSettles | checkbox451_bot/checkbox451_bot/checkbox_api.py:135-192 | an iteration that finds its value or whose get raises ends the poll |
| LegacyClient.Watch | checkbox451_bot/checkbox451_bot/checkbox_api.py:135-195 | the poll loop's result and events are those of the WatchFrom specification |
| LegacyClient.WatchFound | checkbox451_bot/checkbox451_bot/checkbox_api.py:142-190 | a value the poll returns came from a get whose block found it, and that get's events end the poll |
| LegacyClient.WatchGivesUp | checkbox451_bot/checkbox451_bot/checkbox_api.py:148-195 | when no get settles the poll it raises its failure once a body was bound for the log line, and UnboundLocalError when none ever was |
| LegacyClient.WatchLength | checkbox451_bot/checkbox451_bot/checkbox_api.py:135-146 | ten unsettled one-request gets make ten requests and ten pauses |
| LegacyClient.WatchUnbound | checkbox451_bot/checkbox451_bot/checkbox_api.py:185-194 | when every body fails to read as JSON and nothing was bound before, the poll ends in UnboundLocalError |
| LegacyClient.WatchFromBounded | checkbox451_bot/checkbox451_bot/checkbox_api.py:135 | each poll iteration takes at most seven events |
| LegacyClient.FetcherBounded | checkbox451_bot/checkbox451_bot/checkbox_api.py:67 | a get takes at most six requests |
| LegacyClient.OpenedBlockCases | checkbox451_bot/checkbox451_bot/checkbox_api.py:137-144 | the open poll settles exactly on a JSON body whose status is OPENED, goes round on a body that is not JSON, and raises exactly when the body has no status |
| LegacyClient.SignedBlockCases | checkbox451_bot/checkbox451_bot/checkbox_api.py:184-190 | the receipt poll returns a tax_url exactly for a JSON body whose status is DONE and which holds it, and goes round on a body that is not JSON |
| LegacyClient.GoneBlock | checkbox451_bot/checkbox451_bot/checkbox_api.py:263-270 | the close poll settles exactly on a body that reads null and goes round on one that is not JSON |
| LegacyClient.PostWith | checkbox451_bot/checkbox451_bot/checkbox_api.py:86-88 | one POST event and its reply read as the caller reads it |
| LegacyClient.CurrentShift | checkbox451_bot/checkbox451_bot/checkbox_api.py:117-122 | current_shift is the retrying get of the shift path read through raise_for_status |
| LegacyClient.AwaitOpened | checkbox451_bot/checkbox451_bot/checkbox_api.py:133-149 | the open poll after the post gives the result and events of Opening |
| LegacyClient.OpenShiftRun | checkbox451_bot/checkbox451_bot/checkbox_api.py:125-149 | open_shift over the replies: the posted shift's id, returned only after a poll read it OPENED (proved in OpenShiftOpened) |
| LegacyClient.OpenShift | checkbox451_bot/checkbox451_bot/checkbox_api.py:125-149 | open_shift's result and events are those of OpenShiftRun |
| LegacyClient.OpenShiftOpened | checkbox451_bot/checkbox451_bot/checkbox_api.py:125-149 | open_shift returns the id the post gave, and only after a poll found the shift OPENED |
| LegacyClient.LegacySale | checkbox451_bot/checkbox451_bot/checkbox_api.py:152-165 | the sale has exactly one line, the good with quantity 1000, and one payment equal to that line's total |
| LegacyClient.CreateRun | checkbox451_bot/checkbox451_bot/checkbox_api.py:152-177 | create_receipt over the replies: the one-line sale is posted and its reply's id returned (proved in LegacySale and SellReturnsId) |
| LegacyClient.CreateReceipt | checkbox451_bot/checkbox451_bot/checkbox_api.py:152-177 | create_receipt's result and events are those of CreateRun |
| LegacyClient.SellInShift | checkbox451_bot/checkbox451_bot/checkbox_api.py:227-231 | after the shift read, a shift opened when none is, then the receipt |
| LegacyClient.PricedSteps | checkbox451_bot/checkbox451_bot/checkbox_api.py:226-231 | a priced sale is the shift read followed by the rest |
| LegacyClient.SellPriced | checkbox451_bot/checkbox451_bot/checkbox_api.py:226-231 | a sale past the price check gives the result and events of Priced |
| LegacyClient.SellRun | checkbox451_bot/checkbox451_bot/checkbox_api.py:222-231 | sell over the replies: a non-positive price raises before any request, a shift is opened exactly when none is read, and the id comes from the sale post (proved in SellChecksPriceFirst, SellOpensOnlyWithoutShift and SellReturnsId) |
| LegacyClient.Sell | checkbox451_bot/checkbox451_bot/checkbox_api.py:222-231 | sell's result and events are those of SellRun |
| LegacyClient.SellChecksPriceFirst | checkbox451_bot/checkbox451_bot/checkbox_api.py:223-224 | a price that is not positive raises "Невірна ціна" before any request |
| LegacyClient.SellOpensOnlyWithoutShift | checkbox451_bot/checkbox451_bot/checkbox_api.py:222-228 | a shift is opened exactly when the price is positive and the current shift read succeeds and is falsy |
| LegacyClient.StockedReturnsId | checkbox451_bot/checkbox451_bot/checkbox_api.py:227-231 | whatever the shift read and open_shift did, a successful sale returns the id from the sale post, its last request |
| LegacyClient.PricedReturnsId | checkbox451_bot/checkbox451_bot/checkbox_api.py:226-231 | past the price check a receipt id comes only from the sale post |
| LegacyClient.SellReturnsId | checkbox451_bot/checkbox451_bot/checkbox_api.py:175-231 | a receipt id is returned only from the sale post, the last request |
| LegacyClient.NeverJsonUnread | checkbox451_bot/checkbox451_bot/checkbox_api.py:183-187 | when no reply is JSON every get of the poll takes one request and goes round again |
| LegacyClient.WaitAsWritten | checkbox451_bot/checkbox451_bot/checkbox_api.py:180-195 | wait_receipt_sign as written: with no reply ever JSON it ends in UnboundLocalError (proved in WaitAsWrittenUnbound) |
| LegacyClient.WaitAsWrittenUnbound | checkbox451_bot/checkbox451_bot/checkbox_api.py:180-195 | as written, when no reply is ever JSON the wait ends in UnboundLocalError at the log line, not in the receipt error |
| LegacyClient.WaitRun | checkbox451_bot/checkbox451_bot/checkbox_api.py:180-195 | wait_receipt_sign as intended: a tax_url only from a DONE reply, "Не вдалося підписати чек" after ten polls, at most seventy events (proved in WaitGivesUp, WaitOnlyDone and WaitBounded) |
| LegacyClient.WaitGivesUp | checkbox451_bot/checkbox451_bot/checkbox_api.py:180-195 | as intended, the same replies raise "Не вдалося підписати чек" after ten requests and ten pauses |
| LegacyClient.WaitOnlyDone | checkbox451_bot/checkbox451_bot/checkbox_api.py:189-190 | the wait returns a tax_url only from a reply whose status is DONE |
| LegacyClient.WaitBounded | checkbox451_bot/checkbox451_bot/checkbox_api.py:182 | a wait takes at most seventy events |
| LegacyClient.WaitReceiptSign | checkbox451_bot/checkbox451_bot/checkbox_api.py:180-195 | wait_receipt_sign's result and events are those of WaitRun |
| LegacyClient.AwaitClosed | checkbox451_bot/checkbox451_bot/checkbox_api.py:258-275 | the close poll gives the result and events of Closing |
| LegacyClient.CloseRun | checkbox451_bot/checkbox451_bot/checkbox_api.py:252-275 | shift_close over the replies: the closed shift's balance once a poll reads null, and the close error after ten polls that do not (proved in CloseReturnsBalance and CloseGivesUp) |
| LegacyClient.ShiftClose | checkbox451_bot/checkbox451_bot/checkbox_api.py:252-275 | shift_close's result and events are those of CloseRun |
| LegacyClient.CloseReturnsBalance | checkbox451_bot/checkbox451_bot/checkbox_api.py:254-270 | the close returns the closed shift's balance, and only after a poll read the shift as null |
| LegacyClient.CloseGivesUp | checkbox451_bot/checkbox451_bot/checkbox_api.py:261-275 | while the shift keeps reading as a JSON value other than null, the close raises "Не вдалось підписати закриття зміни" after the post, ten requests and ten pauses |
| Transactions.NewTransactions | checkbox451_bot/gsheet/common.py:183-187 | the transactions of curr that prev does not hold, each once, sorted by time (proved in NewTransactionsSpec) |
| Transactions.NewTransactionsSpec | checkbox451_bot/gsheet/common.py:183-187 | the new transactions are the transactions of curr that prev does not hold, each once, sorted by timestamp; every other transaction of curr is in prev (also common.py:40-41) |
| Transactions.FormatCentsNoComma | checkbox451_bot/gsheet/common.py:108 | a sum written with two decimals has no comma |
| Transactions.SumCents | checkbox451_bot/gsheet/common.py:108 | the amount in kopiykas of a decimal with at most two decimals; a sum written with two decimals reads back as the same kopiykas (proved in SumCentsFormat) |
| Transactions.SumCentsFormat | checkbox451_bot/gsheet/common.py:108 | a sum written with two decimals reads back as the same number of kopiykas |
| Transactions.FirstStop | checkbox451_bot/gsheet/common.py:113-122 | the first catalogue good the search stops at: every good before it was passed over |
| Transactions.FirstStopIs | checkbox451_bot/gsheet/common.py:113-122 | a position that stops and has only passed-over goods before it is the first stop |
| Transactions.TransactionToGoods | checkbox451_bot/gsheet/common.py:104-131 | transaction_to_goods gives the goods of the ToGoods specification |
| Transactions.TaggedTriedSpec | checkbox451_bot/gsheet/common.py:113-114 | the goods are tried as a permutation of the catalogue values in descending price order, later catalogue entries first among equal prices |
| Transactions.TaggedTriedUntag | checkbox451_bot/gsheet/common.py:113-114 | reversing the stably sorted list reverses the sort of the values |
| Transactions.TaggedTriedOrder | checkbox451_bot/gsheet/common.py:113-114 | a list ascending by (price, position) reversed is descending by (price, position) |
| Transactions.FirstStopIsHighest | checkbox451_bot/gsheet/common.py:113-122 | the search stops exactly when some catalogue good divides the amount, and then at the highest-priced one, the later entry on equal prices |
| Transactions.ToGoods | checkbox451_bot/gsheet/common.py:104-131 | one line: ValueError for a sum that is not a number, else the highest-priced catalogue good whose price divides the amount, with 1000 times the quotient, or the fallback line when none divides it (proved in ToGoodsSpec and FirstStopIsHighest) |
| Transactions.ToGoodsSpec | checkbox451_bot/gsheet/common.py:104-131 | one line; ValueError exactly when the sum is not a number; the fallback (the transaction's code and name, the amount in kopiykas, quantity 1000) when no catalogue good divides the amount; otherwise the highest-priced dividing good with quantity 1000 times the quotient, and ZeroDivisionError when that good's price is 0 |
| Transactions.ParseAll | checkbox451_bot/gsheet/common.py:184-185 | every record parses, in order, or the first failing record's error |
| Transactions.Origs | checkbox451_bot/gsheet/common.py:47-48 | one original record per transaction |
| Transactions.OrigsSnoc | checkbox451_bot/gsheet/common.py:210-222 | appending a transaction appends its record |
| Transactions.StoreFailure | checkbox451_bot/gsheet/common.py:199-208 | the first accepted transaction whose store fails, every earlier accepted one having been stored |
| Transactions.StoreFailureFrom | checkbox451_bot/gsheet/common.py:199-208 | the first failing store from position i on |
| Transactions.Inserted | checkbox451_bot/gsheet/common.py:37-38 | with the hash keyed on the id, a record enters the set exactly when it parses and has the id key; a missing key is a KeyError (also common.py:184-185) |
| Transactions.InsertedAsWritten | checkbox451_bot/gsheet/common.py:21-38 | as written, every record that parses raises AttributeError as it enters the set, because the hash key attribute is never assigned |
| Transactions.Pending | checkbox451_bot/gsheet/common.py:183-187 | new_transaction on the raw windows with the hash keyed on the id: the new transactions of the parsed windows when every record parses (proved in PendingSpec) |
| Transactions.PendingSpec | checkbox451_bot/gsheet/common.py:183-187 | with the hash keyed on the id, the windows go through exactly when every record parses and has the id key, and then the outcome is the new transactions of the parsed windows |
| Transactions.PendingAsWritten | checkbox451_bot/gsheet/common.py:37-38 | new_transaction as written: a non-empty window raises AttributeError (proved in PendingAsWrittenFails) |
| Transactions.PendingAsWrittenFails | checkbox451_bot/gsheet/common.py:183-187 | as written, new_transaction finds nothing only for two empty windows and otherwise raises; when the first record parses it raises AttributeError (also common.py:21, common.py:37-38) |
| Transactions.Processor.constructor | checkbox451_bot/gsheet/common.py:54-60 | nothing has been written and there are no effects yet |
| Transactions.Processor.StoreTransaction | checkbox451_bot/gsheet/common.py:50-88 | the row [date, sum, sender] is appended unless the worksheet call fails |
| Transactions.Processor.BotNotify | checkbox451_bot/gsheet/common.py:90-102 | the notice reaches the supervisors unless sending fails |
| Transactions.Processor.CreateReceipt | checkbox451_bot/gsheet/common.py:133-180 | no sale when the goods cannot be computed; otherwise the sale is requested and its outcome broadcast, as ReceiptEffects lists |
| Transactions.Processor.Accepted | checkbox451_bot/gsheet/common.py:203-220 | a stored transaction is notified and then has its receipt created |
| Transactions.Processor.Handle | checkbox451_bot/gsheet/common.py:199-222 | one pass of the loop: an accepted transaction's effects, nothing for the others |
| Transactions.Processor.Reconcile | checkbox451_bot/gsheet/common.py:196-227 | the loop stops at the first failing store and writes and returns prev plus the records of the transactions before it; otherwise it writes and returns curr; the effects are those of the transactions reached |
| Transactions.Processor.ProcessTransactions | checkbox451_bot/gsheet/common.py:189-227 | a failed fetch returns prev and writes nothing; a failure while diffing raises and writes nothing; otherwise the snapshot written and returned is as in Reconcile |
| Transactions.Processor.ReadTransactions | checkbox451_bot/gsheet/common.py:70-82 | the snapshot's contents when the file exists; otherwise the fetch, written to the file, or [] with nothing written when the fetch fails |
| Transactions.Processor.CycleAsWritten | checkbox451_bot/gsheet/common.py:189-194 | as written, for a get_transactions without session, the start gives the snapshot or [] and the cycle returns it with nothing stored, notified or receipted (also common.py:73) |
| Transactions.SheetAppend | checkbox451_bot/gsheet/common.py:88 | the worksheet rows of two runs of effects are appended |
| Transactions.SheetNone | checkbox451_bot/gsheet/common.py:88 | effects that append no row leave the worksheet alone |
| Transactions.ReceiptEffects | checkbox451_bot/gsheet/common.py:133-180 | create_receipt's effects: nothing without goods, else the sale and its broadcast, and no worksheet row (proved in ReceiptEffectsSheet) |
| Transactions.ReceiptEffectsSheet | checkbox451_bot/gsheet/common.py:133-180 | creating a receipt appends no row |
| Transactions.Handled | checkbox451_bot/gsheet/common.py:203-220 | one stored transaction's effects: its row, then its notice, then its receipt (proved in HandledSheet and HandledOrder) |
| Transactions.HandledSheet | checkbox451_bot/gsheet/common.py:203-220 | a stored transaction contributes exactly its own row |
| Transactions.Effects | checkbox451_bot/gsheet/common.py:196-227 | the effects of a cycle: one row per stored transaction, in order (proved in SheetOfEffects and RowsAccepted) |
| Transactions.SheetOfEffects | checkbox451_bot/gsheet/common.py:196-227 | the worksheet receives one row per stored transaction, in processing order |
| Transactions.HandledOrder | checkbox451_bot/gsheet/common.py:203-220 | each stored transaction's effects come in the order store, notify, receipt |
| Transactions.BaseCheckStoresAll | checkbox451_bot/gsheet/common.py:43-44 | with the base class's check every new transaction is stored (also common.py:200) |
| Transactions.RowsAccepted | checkbox451_bot/gsheet/common.py:200-204 | only accepted transactions reach the worksheet, one row each |
| Transactions.OrigsAt | checkbox451_bot/gsheet/common.py:47-48 | the records of the transactions are those of its elements, in order |
| Transactions.SnapshotHoldsStored | checkbox451_bot/gsheet/common.py:197-222 | the snapshot returned when the store of txs[k] fails is prev followed by the records of txs[0..k), in order |
| Transactions.CallWithSession | checkbox451_bot/gsheet/common.py:73 | a call with `session=` reaches the fetch exactly when the callee declares session, and then gives the fetch's outcome (also common.py:191) |
| Transactions.SourcesNeverFetch | checkbox451_bot/gsheet/common.py:191 | with the sources' signature (privat24.py:108, fondy.py:171) the call always fails, with the base class's signature it gives the fetch's outcome |
| Fondy.DefaultKeys | checkbox451_bot/gsheet/fondy.py:40-42 | the default headers are Content-Type then User-Agent, each once |
| Fondy.Headers | checkbox451_bot/gsheet/fondy.py:37-44 | the defaults overridden and extended by the extra entries (proved in HeadersGet and HeadersOrder) |
| Fondy.HeadersGet | checkbox451_bot/gsheet/fondy.py:37-44 | an extra entry overrides the default of the same name, and every other extra entry is added |
| Fondy.HeadersOrder | checkbox451_bot/gsheet/fondy.py:40-44 | the headers have each name once, with the defaults first in their places |
| Fondy.SignatureInput | checkbox451_bot/gsheet/fondy.py:29-47 | the signature text is formed exactly when the private key is a string; the company id goes through str(), which never fails |
| Fondy.SignatureInputListId | checkbox451_bot/gsheet/fondy.py:30 | a truthy list company id such as `[1]` is signed as its str(), "[1]", between the private key and the date |
| Fondy.SignatureInputSpec | checkbox451_bot/gsheet/fondy.py:46-47 | the signature covers exactly private_key, company_id and date joined by a bar, and each part can be read back when none holds a bar |
| Fondy.Zip | checkbox451_bot/gsheet/fondy.py:106 | zip pairs the i-th elements up to the shorter length |
| Fondy.RowRecord | checkbox451_bot/gsheet/fondy.py:106 | a row's record: each field name with its value (proved in RowRecordSpec) |
| Fondy.RowRecordSpec | checkbox451_bot/gsheet/fondy.py:106 | with distinct field names, each name that has a value holds the value in its place, and the row has no other keys |
| Fondy.Names | checkbox451_bot/gsheet/fondy.py:103-106 | field names become record keys exactly when they are all strings, in order |
| Fondy.PageRows | checkbox451_bot/gsheet/fondy.py:104-107 | one record per data row |
| Fondy.ReportPage | checkbox451_bot/gsheet/fondy.py:99-108 | a failed request is passed on; a page read is the records of its zipped data rows and its rows_count |
| Fondy.Then | checkbox451_bot/gsheet/fondy.py:105 | records in hand before the rest of a fetch keep its page count and its failure |
| Fondy.Answers | checkbox451_bot/gsheet/fondy.py:99-101 | one page per reply |
| Fondy.AnswersAt | checkbox451_bot/gsheet/fondy.py:99-108 | the i-th page is the i-th reply as report reads it |
| Fondy.ReadPage | checkbox451_bot/gsheet/fondy.py:99-108 | one page request answered by the i-th reply |
| Fondy.Fetch | checkbox451_bot/gsheet/fondy.py:83-108 | the loop requests at least the pages fetched so far and at most one more than there are answers |
| Fondy.FetchContinues | checkbox451_bot/gsheet/fondy.py:83-84 | while rows_count exceeds 500 times the pages fetched another page is requested, and every page before the last requested left rows_count uncovered |
| Fondy.FetchComplete | checkbox451_bot/gsheet/fondy.py:83-110 | a complete fetch stops at the first page whose rows_count is covered, and its records are the pages' records in page order |
| Fondy.FetchFails | checkbox451_bot/gsheet/fondy.py:99-101 | a failed fetch fails at the last page requested, or for want of a reply |
| Fondy.ThenNothing | checkbox451_bot/gsheet/fondy.py:105 | no records in hand leave a fetch as it is |
| Fondy.ThenThen | checkbox451_bot/gsheet/fondy.py:105 | records in hand in two batches are the two in order |
| Fondy.FetchStep | checkbox451_bot/gsheet/fondy.py:83-108 | a page that came back adds its records ahead of the rest of the fetch |
| Fondy.FetchStops | checkbox451_bot/gsheet/fondy.py:99-101 | a page that failed ends the fetch with its error |
| Fondy.Token | checkbox451_bot/gsheet/fondy.py:62-66 | the token request's error is passed on; otherwise the token is returned exactly when the body is a dict holding "token", and is that value |
| Fondy.ReportHeadersGet | checkbox451_bot/gsheet/fondy.py:72 | the report requests carry Authorization "Token " and the token, the default Content-Type and the User-Agent |
| Fondy.PageRequests | checkbox451_bot/gsheet/fondy.py:85-99 | n requests, the i-th carrying the headers and the query for page i + 1 |
| Fondy.ReportPages | checkbox451_bot/gsheet/fondy.py:79-110 | the page loop's records and page count are those of the Fetch specification from page 0 and rows_count 1 |
| Fondy.Report | checkbox451_bot/gsheet/fondy.py:68-110 | a failed token request ends the report before any page is requested; otherwise the records and page count are those of the Fetch specification from page 0 and rows_count 1, and the i-th request carries the token's Authorization header and the query for page i + 1 (also fondy.py:50-66) |
| Fondy.ReportSpec | checkbox451_bot/gsheet/fondy.py:79-110 | the first page is always requested, and a complete report is the pages' records in order |
| Fondy.Parse | checkbox451_bot/gsheet/fondy.py:122-133 | parse_obj raises KeyError exactly when order_timestart is missing, or it parses and order_id, actual_amount or sender_email is missing; a row that parses has ts from order_timestart, code = name = order_id, sum = actual_amount, sender = sender_email or "", approved iff order_status is "approved", and its id from payment_id |
| Fondy.CheckReceipt | checkbox451_bot/gsheet/fondy.py:135-136 | the order status is "approved" (proved in ParsedCheckReceipt) |
| Fondy.ParsedCheckReceipt | checkbox451_bot/gsheet/fondy.py:113-136 | check_receipt holds exactly when order_status is "approved"; every other status reads as ignored |
| Fondy.OnlyApprovedStored | checkbox451_bot/gsheet/fondy.py:135-136 | classified by check_receipt, as intended, every stored row is that of an approved order |
| Fondy.PreRunHook | checkbox451_bot/gsheet/fondy.py:154-169 | the processor runs exactly with a company id, a secret key and a merchant id, and then talks to FondyAPI(company_id, secret_key) |
| Privat24.SepEnd | checkbox451_bot/gsheet/privat24.py:27 | a separator recognised at p ends after p, within the narrative |
| Privat24.SepEndStart | checkbox451_bot/gsheet/privat24.py:27 | a separator is recognised only where one may begin |
| Privat24.MatchAt | checkbox451_bot/gsheet/privat24.py:27 | the group after a separator at p is a non-empty span of the narrative |
| Privat24.Sender | checkbox451_bot/gsheet/privat24.py:26-28 | the group after the rightmost separator at which the rest of the pattern matches, None when none does (also privat24.py:59; proved in SenderSpec and SenderAfterLastSeparator) |
| Privat24.SenderSpec | checkbox451_bot/gsheet/privat24.py:26-60 | there is a sender exactly when the rest of the pattern matches after some separator past the first character of the first line, and it is the group after the rightmost such separator |
| Privat24.SepStartChar | checkbox451_bot/gsheet/privat24.py:27 | a separator begins with ",", "П" or "В" |
| Privat24.CleanAt | checkbox451_bot/gsheet/privat24.py:27 | no separator begins in a tail without those characters |
| Privat24.NoSeparatorNoSender | checkbox451_bot/gsheet/privat24.py:27 | a narrative with no separator after its first character has no sender |
| Privat24.SepTextClean | checkbox451_bot/gsheet/privat24.py:27 | only the first character of a separator can begin one |
| Privat24.SepEndOf | checkbox451_bot/gsheet/privat24.py:27 | a separator followed by a non-space ends where its trailing whitespace ends |
| Privat24.CommaSepEnd | checkbox451_bot/gsheet/privat24.py:27 | the ",\s*" alternative ends after the comma and its whitespace |
| Privat24.TransferSepEnd | checkbox451_bot/gsheet/privat24.py:27 | the "Переказ(?:и:)?\s+вiд\s+" alternative ends after its whitespace |
| Privat24.FromSepEnd | checkbox451_bot/gsheet/privat24.py:27 | the "Вiд\s+" alternative ends after its whitespace |
| Privat24.TransferAt | checkbox451_bot/gsheet/privat24.py:27 | the pieces of a transfer separator sit where they start |
| Privat24.KeywordAt | checkbox451_bot/gsheet/privat24.py:27 | "Переказ" or "Перекази:" followed by whitespace: the plural form exactly when "и:" follows |
| Privat24.MatchAtGroup | checkbox451_bot/gsheet/privat24.py:27 | the pattern matches at p with the group from q to e |
| Privat24.SenderAtGroup | checkbox451_bot/gsheet/privat24.py:27-60 | with a separator at p, its group from q to e, no separator after p and no line break before it, the sender is that group |
| Privat24.NarrativeLayout | checkbox451_bot/gsheet/privat24.py:27 | a narrative written from its pieces has them in place |
| Privat24.NarrativeGroup | checkbox451_bot/gsheet/privat24.py:27 | in such a narrative, the separator ends where the words begin |
| Privat24.SenderOfGroup | checkbox451_bot/gsheet/privat24.py:27 | a separator followed by two or three words and trailing whitespace, with no later separator: the sender is the words |
| Privat24.SenderAfterLastSeparator | checkbox451_bot/gsheet/privat24.py:26-28 | the sender is the two or three words after the last separator |
| Privat24.SenderOfTwoWords | checkbox451_bot/gsheet/privat24.py:27 | a sender of two words after the last separator |
| Privat24.SenderOfThreeWords | checkbox451_bot/gsheet/privat24.py:27 | a sender of three words after the last separator |
| Privat24.SenderAfterComma | tests/test_gsheet.py:16-19 | "Плата за послуги, Шевченко Тарас Григорович" gives "Шевченко Тарас Григорович" |
| Privat24.SenderAfterTransfer | tests/test_gsheet.py:20-23 | "… Переказ вiд JANE DOE" gives "JANE DOE" |
| Privat24.SenderAfterFrom | tests/test_gsheet.py:24-27 | "… Вiд JANE DOE" gives "JANE DOE" |
| Privat24.NoSenderAfterHead | checkbox451_bot/gsheet/privat24.py:27 | a narrative with no separator after its first character has no sender |
| Privat24.NoSenderForCardCredit | tests/test_gsheet.py:37-38 | "Переказ (Кредитна частина) 01.02.2018 00:00:00 по картці 1234567890123456" has no sender |
| Privat24.NoSenderForTopUp | tests/test_gsheet.py:39 | "1234 **** **** 5678 Зарахування переказу на картку" has no sender |
| Privat24.Lowered | checkbox451_bot/gsheet/privat24.py:55 | the record's pairs with their keys lower-cased, in order |
| Privat24.LowerKeys | checkbox451_bot/gsheet/privat24.py:53-55 | the record with lower-cased keys, the last original key winning (proved in LowerKeysGet and LowerKeysIdempotent) |
| Privat24.LowerKeysGet | checkbox451_bot/gsheet/privat24.py:53-55 | a key of the normalised record holds the value of the last original key that lower-cases to it; any other key is absent |
| Privat24.LowerKeysIdempotent | checkbox451_bot/gsheet/privat24.py:53-55 | lower-casing the keys again changes nothing |
| Privat24.Parse | checkbox451_bot/gsheet/privat24.py:47-73 | parse_obj raises KeyError exactly when osnd, date_time_dat_od_tim_p or (after a parsed date) sum_e is missing; a record that parses has name = the configured default name, sum = sum_e, code = "name sum_e", the sender from the pattern, ts from date_time_dat_od_tim_p, credit iff trantype is "C", and its id from TECHNICAL_TRANSACTION_ID |
| Privat24.ParseSender | checkbox451_bot/gsheet/privat24.py:59-60 | a narrative the pattern matches gives the sender; one it does not match, with no "sender" key, gives "" (also checkbox451_bot/gsheet/common.py:27) |
| Privat24.ParseCaseInsensitive | checkbox451_bot/gsheet/privat24.py:53-55 | a record and the record with its keys lower-cased parse the same, up to the record kept and the id read from it |
| Privat24.Accounts | checkbox451_bot/gsheet/privat24.py:31-35 | accounts() is the truthy entries of the configured list, empty when the setting is missing or falsy |
| Privat24.AccountsOfStrings | checkbox451_bot/gsheet/privat24.py:33-35 | a configured list of account numbers gives its non-empty ones, in order |
| Privat24.CheckReceipt | checkbox451_bot/gsheet/privat24.py:75-78 | a credit to a tracked account, every account tracked when none are configured (proved in ParsedCheckReceipt) |
| Privat24.ParsedCheckReceipt | checkbox451_bot/gsheet/privat24.py:38-78 | check_receipt holds exactly when trantype is "C" and the account list is empty or holds the record's own account |
| Privat24.DebitStoredAsWritten | checkbox451_bot/gsheet/common.py:43-44 | as written, a debit that check_receipt rejects is still stored, because the loop calls the base check (also common.py:200) |
| Privat24.OnlyCreditsStored | checkbox451_bot/gsheet/privat24.py:75-78 | classified by check_receipt, as intended, every stored row is that of a credit to a tracked account |
| Privat24.PageOf | checkbox451_bot/gsheet/privat24.py:129-135 | a page read is its transactions and, when exist_next_page is set, the next_page_id to follow |
| Privat24.Paginate | checkbox451_bot/gsheet/privat24.py:111-137 | the first request carries the starting followId, and there is at most one request more than there are replies |
| Privat24.PaginateSpec | checkbox451_bot/gsheet/privat24.py:111-137 | each later request carries the next_page_id of the page before, which had exist_next_page set; a complete fetch ends at a page without it and is the pages' transactions in order; a failed one fails at the last request |
| Privat24.GetTransactions | checkbox451_bot/gsheet/privat24.py:108-137 | get_transactions' transactions and followIds are those of Paginate from the empty followId |
| Pb2Gsheet.CommaMatch | checkbox451_bot/pb2gsheet.py:19 | a match of the rest of the pattern at a comma starts its group after the whitespace following the comma and spans exactly three words |
| Pb2Gsheet.Sender | checkbox451_bot/pb2gsheet.py:19 | the three words after the rightmost comma at which the rest of the pattern matches, None when none does (also pb2gsheet.py:71-74; proved in SenderSpec and SenderAfterLastComma) |
| Pb2Gsheet.SenderSpec | checkbox451_bot/pb2gsheet.py:19 | there is a sender exactly when the rest of the pattern matches after some comma of the first line past its first character, and it is the group after the rightmost such comma |
| Pb2Gsheet.NoCommaNoSender | checkbox451_bot/pb2gsheet.py:19 | a narrative without a comma has no sender |
| Pb2Gsheet.SenderAtComma | checkbox451_bot/pb2gsheet.py:19 | a comma with three words and trailing whitespace after it, no later comma and no line break before it: the sender is the words |
| Pb2Gsheet.CommaMatchAt | checkbox451_bot/pb2gsheet.py:19 | the pattern matches at such a comma, with that group |
| Pb2Gsheet.NoMatchAfter | checkbox451_bot/pb2gsheet.py:19 | with no comma after p the pattern matches at no later position |
| Pb2Gsheet.WithinFirstLine | checkbox451_bot/pb2gsheet.py:19 | `.+` can stop at any position before the first line break |
| Pb2Gsheet.SenderAfterLastComma | checkbox451_bot/pb2gsheet.py:19 | the sender is the three words after the last comma |
| Pb2Gsheet.SenderOfThreeWords | checkbox451_bot/pb2gsheet.py:19 | ", a b c" at the end of a one-line narrative gives "a b c" |
| Pb2Gsheet.SenderAfterComma | tests/checkbox451_bot/test_pb2gsheet.py:9-12 | "Плата за послуги, Шевченко Тарас Григорович" gives "Шевченко Тарас Григорович" |
| Pb2Gsheet.NoCommaForCardCredit | tests/checkbox451_bot/test_pb2gsheet.py:30-31 | the card-credit narrative has no sender |
| Pb2Gsheet.NoCommaForTopUp | tests/checkbox451_bot/test_pb2gsheet.py:32 | the top-up narrative has no sender |
| Pb2Gsheet.NoSenderForTransfer | tests/checkbox451_bot/test_pb2gsheet.py:13-16 | the "Переказ вiд JANE DOE" narrative has no sender under this pattern, although the test expects "JANE DOE" |
| Pb2Gsheet.NoSenderForFrom | tests/checkbox451_bot/test_pb2gsheet.py:17-20 | the "Вiд JANE DOE" narrative has no sender under this pattern, although the test expects "JANE DOE" |
| Pb2Gsheet.Parse | checkbox451_bot/pb2gsheet.py:37-82 | parse_obj raises KeyError exactly when "osnd" is missing; otherwise it succeeds exactly when the narrative is a string, the sender field is well-typed, aut_my_acc and sum_e are strings, both dates parse and trantype is present and not null; the statement then holds those fields, credit iff trantype is "C", and the original record |
| Pb2Gsheet.ParseSender | checkbox451_bot/pb2gsheet.py:70-74 | a matching narrative gives the title-cased group; a non-matching one without a "sender" key gives "" |
| Pb2Gsheet.Accounts | checkbox451_bot/pb2gsheet.py:21-23 | the accounts are exactly the non-empty comma-separated pieces of PRIVAT24_ACCOUNTS, "" when unset |
| Pb2Gsheet.AccountsRoundTrip | checkbox451_bot/pb2gsheet.py:21-23 | non-empty comma-free account numbers joined with commas are read back as they were |
| Pb2Gsheet.ParsedTracked | checkbox451_bot/pb2gsheet.py:169-171 | a parsed statement is stored exactly when trantype is "C" and no accounts are configured or its account is one of them |
| Pb2Gsheet.ItemsError | checkbox451_bot/pb2gsheet.py:154-155 | frozenset(t.items()) raises nothing exactly when t is a dict with only hashable values |
| Pb2Gsheet.FirstError | checkbox451_bot/pb2gsheet.py:154-155 | building the sets of a fetch raises exactly when some element raises, with the error of one of them |
| Pb2Gsheet.Records | checkbox451_bot/pb2gsheet.py:154-155 | a fetch of dicts gives their records in order |
| Pb2Gsheet.ParseEach | checkbox451_bot/pb2gsheet.py:157 | parsing every record succeeds exactly when each parses, giving their statements in order, and otherwise fails with the error of one of them |
| Pb2Gsheet.NewStatements | checkbox451_bot/pb2gsheet.py:153-157 | an element of prev that cannot be hashed raises first, then one of curr |
| Pb2Gsheet.NewStatementsSpec | checkbox451_bot/pb2gsheet.py:153-157 | the new statements are sorted by time, each parsed from a record of curr whose item set no record of prev has, each item set once, and every record of curr has its item set in prev or among them |
| Pb2Gsheet.FreshStatements | checkbox451_bot/pb2gsheet.py:153-157 | the same conclusion for any parser that keeps the record it reads |
| Pb2Gsheet.DiffInFetch | checkbox451_bot/pb2gsheet.py:154-157 | curr_set - prev_set holds exactly the item sets of curr missing from prev, each once |
| Pb2Gsheet.ParseKeepsRecord | checkbox451_bot/pb2gsheet.py:58-64 | a parsed statement keeps the record it was parsed from |
| Pb2Gsheet.ParsedDiff | checkbox451_bot/pb2gsheet.py:157 | sorting the parsed difference keeps every record of it and nothing else, in time order |
| Pb2Gsheet.DistinctParsed | checkbox451_bot/pb2gsheet.py:157 | parsing keeps distinct item sets distinct |
| Pb2Gsheet.NothingNewInItself | checkbox451_bot/pb2gsheet.py:153-157 | a fetch compared with itself has no new statement |
| Pb2Gsheet.StoreFailure | checkbox451_bot/pb2gsheet.py:168-178 | the first statement to be stored whose store fails, or the end: every statement before it was skipped or stored |
| Pb2Gsheet.StoreFailureFrom | checkbox451_bot/pb2gsheet.py:168-178 | the same search from position i |
| Pb2Gsheet.Poller.constructor | checkbox451_bot/pb2gsheet.py:192-199 | a new poller has no effects |
| Pb2Gsheet.Poller.StoreTransaction | checkbox451_bot/pb2gsheet.py:138-140 | the row (dat_od, sum_e, sender) is appended unless the worksheet call fails |
| Pb2Gsheet.Poller.WriteTransactions | checkbox451_bot/pb2gsheet.py:118-120 | the snapshot file is overwritten with the fetch |
| Pb2Gsheet.Poller.BotNotify | checkbox451_bot/pb2gsheet.py:143-150 | the notice with the sum and, when there is one, the sender reaches the supervisors unless sending fails |
| Pb2Gsheet.Poller.Handle | checkbox451_bot/pb2gsheet.py:169-185 | one statement: if stored, its row, the whole-fetch write and the notice if delivered |
| Pb2Gsheet.Poller.ProcessTransactions | checkbox451_bot/pb2gsheet.py:160-189 | a failed fetch returns prev with no effect; an error of new_transaction propagates with no effect; otherwise the effects are those of the cycle up to the first failed store, and the result is prev after a failed store and the fetch otherwise |
| Pb2Gsheet.Poller.Reconcile | checkbox451_bot/pb2gsheet.py:167-189 | the loop over the new statements has the cycle's effects up to the first failed store and returns prev after it, curr otherwise |
| Pb2Gsheet.StepRows | checkbox451_bot/pb2gsheet.py:169-180 | one statement appends its row exactly when it is stored |
| Pb2Gsheet.CycleEffects | checkbox451_bot/pb2gsheet.py:168-185 | a cycle's effects: the stored statements' rows, each followed by a whole-fetch write, and notices only for them (proved in CycleRows, CycleWrites and CycleNotices) |
| Pb2Gsheet.CycleRows | checkbox451_bot/pb2gsheet.py:168-180 | the worksheet receives the rows of the stored statements, in processing order |
| Pb2Gsheet.StoredRowsTracked | checkbox451_bot/pb2gsheet.py:169-175 | every row appended is that of a credit to a tracked account, and every such statement before the failure has its row appended |
| Pb2Gsheet.StepWritesWhole | checkbox451_bot/pb2gsheet.py:175-180 | one step writes only the whole fetch, right after the row |
| Pb2Gsheet.CycleWrites | checkbox451_bot/pb2gsheet.py:168-180 | every snapshot written in a cycle is the whole fetch, each right after an appended row |
| Pb2Gsheet.CycleNotices | checkbox451_bot/pb2gsheet.py:182-185 | every notice of a cycle is that of a stored statement whose notification went through |
| Pb2Gsheet.StoredAppended | checkbox451_bot/pb2gsheet.py:175-180 | a statement stored before the failure has its row and a whole-fetch write among the effects |
| Pb2Gsheet.Returned | checkbox451_bot/pb2gsheet.py:174-190 | prev when a store failed, else the fetch; the next cycle from it is stated in RestoredAsWritten |
| Pb2Gsheet.RestoredAsWritten | checkbox451_bot/pb2gsheet.py:174-180 | as written, after an earlier store wrote the whole fetch, a failed store returns prev: the next cycle over the same fetch finds every statement new again, while the file holds a fetch against which nothing is new |
| Pb2Gsheet.Restored | checkbox451_bot/pb2gsheet.py:174-180 | the corrected snapshot after a failed store at k: prev followed by the records of the statements before k |
| Pb2Gsheet.RestoredIntended | checkbox451_bot/pb2gsheet.py:174-180 | with the corrected snapshot the next cycle can build its sets, and over the same fetch it finds new exactly the statements from the failed one on |
| Pb2Gsheet.RestoredReadable | checkbox451_bot/pb2gsheet.py:154-155 | the corrected snapshot holds only values of prev and curr, so building its sets raises nothing |
| Pb2Gsheet.RestoredSeen | checkbox451_bot/pb2gsheet.py:153-157 | for one record of the fetch: missing from the corrected snapshot exactly when it is a statement from k on |
| GoodsParser.PointAt | checkbox451_bot/handlers/helpers.py:91-93 | the first "." or "," of a number token, or its end |
| GoodsParser.PointAtDigits | checkbox451_bot/handlers/helpers.py:91 | in digits followed by a separator, the separator is right after the digits |
| GoodsParser.PointOrComma | checkbox451_bot/handlers/helpers.py:91-105 | "." and "," read alike: digits, a separator and at most k decimals are a number worth the whole units times 10^k plus the fraction scaled to k places |
| GoodsParser.SeparatedNumber | checkbox451_bot/handlers/helpers.py:91-105 | a number with either separator is worth its units times 10^k plus its fraction scaled to k places |
| GoodsParser.ScaledCents | checkbox451_bot/handlers/helpers.py:104-106 | a price written with two decimals reads back as the same number of kopiykas (also checkbox451_bot/handlers/tests/test_helpers.py:10-17) |
| GoodsParser.ScaledMilli | checkbox451_bot/handlers/helpers.py:105 | a quantity written with three decimals reads back as the same number of thousandths (also checkbox451_bot/handlers/tests/test_helpers.py:32-39) |
| GoodsParser.Tail | checkbox451_bot/handlers/helpers.py:91-93 | the rest of the pattern after the name yields a price of at most two decimals and a quantity of at most three, or none |
| GoodsParser.AfterPrice | checkbox451_bot/handlers/helpers.py:91-93 | after the price, whitespace, "грн" and an optional quantity of at most three decimals |
| GoodsParser.Quantity | checkbox451_bot/handlers/helpers.py:92 | the optional quantity is absent or a number of at most three decimals |
| GoodsParser.FirstEnd | checkbox451_bot/handlers/helpers.py:91 | the lazy name ends at or after where it starts, within the line |
| GoodsParser.TryStarts | checkbox451_bot/handlers/helpers.py:91 | the name found starts within the leading whitespace tried and is non-empty |
| GoodsParser.NameSpan | checkbox451_bot/handlers/helpers.py:91 | the name of a matching line is a non-empty span of it |
| GoodsParser.ParseLine | checkbox451_bot/handlers/helpers.py:101-107 | a good's code is its name, a space and its price with two decimals |
| GoodsParser.FirstEndIsFirst | checkbox451_bot/handlers/helpers.py:91 | the lazy `.+?` ends at the least position where the rest of the pattern matches, and at none when there is none |
| GoodsParser.TryStartsIsLeftmost | checkbox451_bot/handlers/helpers.py:91 | `^\s*` gives up leading whitespace one character at a time: the name starts after the longest run that leaves a name, and is the shortest one there |
| GoodsParser.NameSpanIsLeftmostShortest | checkbox451_bot/handlers/helpers.py:91-93 | a line's name starts after all of its leading whitespace unless no name then fits, is the shortest after which the rest matches, and a line matches only if such a name exists |
| GoodsParser.ParseLineMatches | checkbox451_bot/handlers/helpers.py:91-107 | a line matches exactly when some name end fits, and then it gives the good of the leftmost shortest name with its price and quantity |
| GoodsParser.BreakAt | checkbox451_bot/handlers/helpers.py:98 | the first line break at or after i, or the end |
| GoodsParser.ParseAll | checkbox451_bot/handlers/helpers.py:93-109 | all lines parse exactly when each does, giving their goods in order |
| GoodsParser.TextToGoods | checkbox451_bot/handlers/helpers.py:97-111 | a text gives goods exactly when splitlines() counts as many lines as the pattern matches, which is when every '\n'-separated line matches and no other line break occurs; the goods are those of the lines, in order |
| GoodsParser.EmptyText | checkbox451_bot/handlers/helpers.py:97-111 | an empty text gives no goods, not None |
| GoodsParser.Layout | checkbox451_bot/goods.py:12 | a written line holds the name, then the price with two decimals, "грн" and the quantity |
| GoodsParser.QuantityToken | checkbox451_bot/handlers/helpers.py:92 | one space and a number token at the end read as that quantity |
| GoodsParser.TailAt | checkbox451_bot/handlers/helpers.py:91-93 | after a name followed by a price and "грн", the tail reads that price and the quantity after it |
| GoodsParser.TailAfterName | checkbox451_bot/goods.py:12 | after the whole name of a written line the tail reads the written price and quantity (also checkbox451_bot/handlers/helpers.py:91-93) |
| GoodsParser.TailWithQuantity | checkbox451_bot/handlers/helpers.py:91-93 | a line laid out with a quantity gives that price and quantity |
| GoodsParser.TailWithoutQuantity | checkbox451_bot/handlers/helpers.py:91-93 | a line laid out without a quantity gives that price and none |
| GoodsParser.NoEarlierFit | checkbox451_bot/handlers/helpers.py:91 | no shorter name fits a written line of a plain name |
| GoodsParser.ParseFormatted | checkbox451_bot/goods.py:12 | a plainly named good written as the bot writes it reads back as that good, quantity 1000 when none is written (also checkbox451_bot/handlers/helpers.py:97-109) |
| GoodsParser.SpanAtStart | checkbox451_bot/handlers/helpers.py:91 | a line with no leading whitespace whose tail first fits after n characters has those n characters for its name |
| GoodsParser.SplitLinesJoin | checkbox451_bot/handlers/helpers.py:98 | non-empty lines free of line breaks, joined by '\n', are what splitlines() gives back |
| GoodsParser.LinesOfJoin | checkbox451_bot/handlers/helpers.py:93-98 | such lines, joined by '\n', are the lines the multi-line pattern sees |
| GoodsParser.TextOfLines | checkbox451_bot/handlers/helpers.py:97-111 | lines that each parse, joined by '\n', give their goods in order |
| GoodsParser.OrderRoundTrip | checkbox451_bot/handlers/helpers.py:97-111 | an order of plainly named goods written one per line reads back as exactly those goods, in order (also checkbox451_bot/handlers/tests/test_helpers.py:42-66) |
| SenderPattern.Group | checkbox451_bot/gsheet/privat24.py:27 | k words and nothing but whitespace after them end after where they start, within the text (also checkbox451_bot/pb2gsheet.py:19) |
| SenderPattern.Limit | checkbox451_bot/gsheet/privat24.py:27 | `.+` after `^` stops inside the first line, before the last character (also checkbox451_bot/pb2gsheet.py:19) |
| SenderPattern.LastMatch | checkbox451_bot/gsheet/privat24.py:27 | greedy `.+` takes a position up to the limit (also checkbox451_bot/pb2gsheet.py:19) |
| SenderPattern.LastMatchSpec | checkbox451_bot/gsheet/privat24.py:27 | greedy `.+` takes the rightmost position at which the rest of the pattern matches, if any (also checkbox451_bot/pb2gsheet.py:19) |
| SenderPattern.LastMatchIs | checkbox451_bot/gsheet/privat24.py:27 | a position where the rest matches, with none after it, is the one taken (also checkbox451_bot/pb2gsheet.py:19) |
| SenderPattern.LastMatchNone | checkbox451_bot/gsheet/privat24.py:27 | where the rest matches nowhere, there is no match (also checkbox451_bot/pb2gsheet.py:19) |
| SenderPattern.GroupOfWords | checkbox451_bot/gsheet/privat24.py:27 | k words written with single spaces, and whitespace to the end, form the group of k words (also checkbox451_bot/pb2gsheet.py:19) |
| SenderPattern.GroupReads | checkbox451_bot/gsheet/privat24.py:27 | that group reads as the words (also checkbox451_bot/pb2gsheet.py:19) |
| SenderPattern.GroupExclusive | checkbox451_bot/gsheet/privat24.py:27 | a group of k words and one of k + 1 words cannot follow the same position |
| Json.Subscript | checkbox451_bot/checkbox_api/helpers.py:118 | `j[key]` gives the value of key in a dict that holds it; KeyError for a dict without it, TypeError for anything else |
| Json.DictGet | checkbox451_bot/checkbox_api/helpers.py:119 | `j.get(key)` gives the value of key or the default in a dict, AttributeError for anything else |
| Json.Iterate | checkbox451_bot/gsheet/privat24.py:33-35 | iteration gives a list's items, a string's characters or a dict's keys, and TypeError for anything else |
| Json.TruthyItems | checkbox451_bot/gsheet/privat24.py:34 | the kept values are exactly the truthy ones among the items |
| Json.AsStr | checkbox451_bot/gsheet/privat24.py:50-52 | a `str` field accepts strings as themselves and numbers and booleans through str(), and refuses null, lists and dicts |
| Json.PyStr | checkbox451_bot/checkbox_api/helpers.py:120 | str() of a string is the string, of a number its decimal digits, of a list or dict its bracketed repr |
| Json.StrRepr | checkbox451_bot/checkbox_api/helpers.py:120 | repr() of a string is quoted with matching quotes |
| Text.Lower | checkbox451_bot/gsheet/privat24.py:55 | str.lower() keeps the length and lower-cases each letter it maps |
| Text.LowerIdempotent | checkbox451_bot/gsheet/privat24.py:53-55 | lower-casing twice is lower-casing once |
| Text.Title | checkbox451_bot/pb2gsheet.py:73 | str.title(): a cased character after a cased character becomes lower case, any other cased character upper case, the rest is kept |
| Text.TitleIdempotent | checkbox451_bot/pb2gsheet.py:73 | a title-cased text is its own title case |
| Text.TitleKeepsSpaces | checkbox451_bot/pb2gsheet.py:73 | title() leaves whitespace where it was |
| Text.Split | checkbox451_bot/pb2gsheet.py:22 | str.split(sep) gives at least one part, none holding the separator |
| Text.JoinSplit | checkbox451_bot/pb2gsheet.py:22 | splitting and joining on the same separator gives the text back |
| Text.SplitJoin | checkbox451_bot/pb2gsheet.py:22 | joining separator-free parts and splitting again gives the parts back |
| Text.CommaList | checkbox451_bot/checkbox451_bot/auth.py:19 | a comma-separated list with its empty entries dropped; joining non-empty entries without commas and splitting gives them back (proved in CommaListRoundTrip) |
| Text.CommaListRoundTrip | checkbox451_bot/pb2gsheet.py:21-23 | non-empty comma-free entries survive being written out and read back |
| Sorting.SortBySorted | checkbox451_bot/gsheet/common.py:113-114 | sorted() gives a sequence ordered by the key that is a permutation of its input (also common.py:187) |
| Sorting.SortByStable | checkbox451_bot/gsheet/common.py:113-114 | sorted() is stable: elements with equal keys keep their order |
| Sorting.ReverseMultiset | checkbox451_bot/gsheet/common.py:113 | reversed() keeps the elements |
| SetDiff.DiffSpec | checkbox451_bot/gsheet/common.py:184-187 | the set difference holds the elements of curr whose key prev lacks, one per key, and every element of curr is accounted for by prev or by it |
| SetDiff.DiffSelf | checkbox451_bot/gsheet/common.py:184-187 | a window compared with itself has nothing new |

## Left out

- FiscalHttp.Retry: the per-attempt timeout `ClientTimeout(total=0.5 * 1.5**attempt)` (helpers.py:73) and the one in the older get (checkbox_api.py:71) are not modelled as durations. Whether an attempt times out before a response, or after one whose body then arrives too late, is the reply oracle's choice (`TimedOut`, `Late`), so the growing timeout is not tied to attempt numbers.
- Transactions.SumCents: the amount is read exactly as kopiykas. The code computes `float(sum) * 100` (common.py:108), so "0.29" gives 28.999… there. That value then divides no catalogue price exactly and is sent as a non-integral price. The model gives 29.
- Transactions.SumCents: reads only an optional "-", then digits, then optionally "." and at most two decimals (so "5." is read as 5). It returns None for forms `float()` accepts: "1e3", "+5", "inf", ".5", "-.5", "1_000", text with surrounding whitespace, and text with three or more decimals.
- Transactions.TransactionToGoods: prices and quantities are integers throughout. The float arithmetic of `divmod(price, good_price)` is not modelled.
- GoodsParser.ParseLine: prices and quantities are read exactly as kopiykas and thousandths. `int(float(x) * 100)` and `int(float(x) * 1000)` (handlers/helpers.py:104-105) truncate, so "0.29" gives 28 kopiykas and "1.005" gives 1004 thousandths there.
- GoodsParser.ParseLine: `\d` and `\s` are taken as the ASCII digits and Python's whitespace characters. The Unicode decimal digits of other scripts, which `\d` and `float()` also accept, are not modelled (Text.IsDigit).
- ShiftReport.PrepareReport: the report's amounts are kopiykas rendered with two decimals. The code divides by 100 as floats; that division is not modelled.
- FiscalShift.ShiftBalance: returns the balance in kopiykas rather than the float `balance / 100`.
- FiscalShift.ShiftCloseRun: returns the service-out figure in kopiykas rather than the float `/ 100`.
- LegacyClient.ShiftClose: returns the balance in kopiykas rather than the float `/ 100`.
- Text.Title: the case mapping covers ASCII and the Cyrillic block only. The rest of Unicode's case tables, title-case digraphs and characters that change length when their case changes are not modelled. The same holds for Text.Lower.
- Json.Repr: escapes quotes, backslashes, the named escapes and the other Latin-1 control characters. Python's rule for non-printable characters beyond Latin-1 is not modelled.
- Json: numbers are integers. JSON floats in a reply are not modelled.
- FiscalHttp.Load: a body that is not JSON reads as JSONDecodeError. aiohttp raises ContentTypeError for a reply whose content type is not JSON, and check_sign (checkbox_api/helpers.py:160) does not catch that error. The two are not told apart, so FiscalHttp.SignState reads both as False, and the polls skip both.
- FiscalShift.PayOut: modelled as intended, one GET per poll. shift.py imports `get` and `post` from checkbox_api/helpers.py, which does not define `get` (shift.py:10-18), so importing shift.py raises ImportError. Its `async with get_retry(...)` (shift.py:91) would also raise TypeError, because get_retry is a coroutine function and not a context manager. FiscalShift treats every request of shift.py as one request through the reply oracle.
- FiscalShift.OpenShift: modelled as intended, for the same import failure.
- FiscalShift.ShiftClose: modelled as intended, for the same import failure.
- Transactions.NewTransactionsSpec: `sorted()` of a set keeps transactions with equal timestamps in the set's hash order (common.py:187). The model takes them in the order of the current window.
- Pb2Gsheet.NewStatementsSpec: the same holds for the whole-record set difference (pb2gsheet.py:157).
- Pb2Gsheet.NewStatementsSpec: item sets compare JSON values structurally. Python's `True == 1` and `hash(True) == hash(1)`, which make `("k", True)` and `("k", 1)` the same set element, are not modelled.
- Auth.Authority.SignIn: phone numbers are compared as stored strings. The code wraps them in `PhoneNumber(..., region="UA")`, which normalises formats and raises on an invalid number (auth.py:21-26).
- Auth.Authority.constructor: takes the ADMIN variable's text as a parameter. The KeyError that `os.environ["ADMIN"]` raises when the variable is unset is not modelled.
- Config.GetValue: the configuration is a parameter. Reading config.yaml and a missing file are not modelled.
- Pb2Gsheet.Accounts: the module-level `os.environ["PRIVAT24_API_ID"]` and `os.environ["PRIVAT24_API_TOKEN"]` lookups (pb2gsheet.py:25-26), which raise KeyError at import time, are not modelled.
- Fondy.SignatureInput: the SHA-512 hex digest (fondy.py:48) is not modelled. The model states the exact text the digest is computed over.
- Privat24: `pre_run_hook` (privat24.py:94-106) renames an old snapshot file and checks the credentials. Its file handling is I/O, and it is not modelled.
- Pb2Gsheet.Poller.ProcessTransactions: `read_transactions` and the `run` loop (pb2gsheet.py:123-135, 192-206) are file I/O and a sleep loop, and are not modelled.
- Transactions.Processor.ProcessTransactions: `run`, the sleeps and the scheduling in common.py are not modelled.
- FiscalReceipt.Total: the payment is computed exactly in thousandths of a kopiyka. The code sums the float `price * quantity / 1000` (receipt.py:21), whose rounding is not modelled. The same holds for FiscalReceipt.ReceiptBody.
- FiscalReceipt.PaymentIsLinesTotal: states the exact total; the float payment of receipt.py:21 may differ from it by rounding.
- FiscalReceipt.CreateReceipt: modelled as intended: receipt.py:13 imports shift.py, and importing shift.py raises ImportError (see FiscalShift.PayOut above), so as written none of receipt.py can run; the model runs it as intended.
- FiscalReceipt.WaitReceiptSign: modelled as intended: receipt.py:13 imports shift.py, and importing shift.py raises ImportError (see FiscalShift.PayOut above), so as written none of receipt.py can run; the model runs it as intended.
- FiscalReceipt.SearchReceipt: modelled as intended: receipt.py:13 imports shift.py, and importing shift.py raises ImportError (see FiscalShift.PayOut above), so as written none of receipt.py can run; the model runs it as intended.
- FiscalReceipt.GetReceiptExtra: modelled as intended: receipt.py:13 imports shift.py, and importing shift.py raises ImportError (see FiscalShift.PayOut above), so as written none of receipt.py can run; the model runs it as intended.
- FiscalReceipt.GetReceiptData: modelled as intended: receipt.py:13 imports shift.py, and importing shift.py raises ImportError (see FiscalShift.PayOut above), so as written none of receipt.py can run; the model runs it as intended.
- FiscalReceipt.Sell: modelled as intended: receipt.py:13 imports shift.py, and importing shift.py raises ImportError (see FiscalShift.PayOut above), so as written none of receipt.py can run; the model runs it as intended.
- LegacyClient.GetWith: modelled as intended: it runs the intended get (LegacyClient.Fetch), so an exception raised in a get's block escapes as itself. As written (checkbox_api.py:66-83) the block's exception is caught, the request is retried, and the get ends in RuntimeError; see "## Findings".
- LegacyClient.Fetched: modelled as intended: it runs the intended get (LegacyClient.Fetch), so an exception raised in a get's block escapes as itself. As written (checkbox_api.py:66-83) the block's exception is caught, the request is retried, and the get ends in RuntimeError; see "## Findings".
- LegacyClient.Watch: modelled as intended: it runs the intended get (LegacyClient.Fetch), so an exception raised in a get's block escapes as itself. As written (checkbox_api.py:66-83) the block's exception is caught, the request is retried, and the get ends in RuntimeError; see "## Findings".
- LegacyClient.CurrentShift: modelled as intended: it runs the intended get (LegacyClient.Fetch), so an exception raised in a get's block escapes as itself. As written (checkbox_api.py:66-83) the block's exception is caught, the request is retried, and the get ends in RuntimeError; see "## Findings".
- LegacyClient.AwaitOpened: modelled as intended: it runs the intended get (LegacyClient.Fetch), so an exception raised in a get's block escapes as itself. As written (checkbox_api.py:66-83) the block's exception is caught, the request is retried, and the get ends in RuntimeError; see "## Findings".
- LegacyClient.OpenShift: modelled as intended: it runs the intended get (LegacyClient.Fetch), so an exception raised in a get's block escapes as itself. As written (checkbox_api.py:66-83) the block's exception is caught, the request is retried, and the get ends in RuntimeError; see "## Findings".
- LegacyClient.SellInShift: modelled as intended: it runs the intended get (LegacyClient.Fetch), so an exception raised in a get's block escapes as itself. As written (checkbox_api.py:66-83) the block's exception is caught, the request is retried, and the get ends in RuntimeError; see "## Findings".
- LegacyClient.SellPriced: modelled as intended: it runs the intended get (LegacyClient.Fetch), so an exception raised in a get's block escapes as itself. As written (checkbox_api.py:66-83) the block's exception is caught, the request is retried, and the get ends in RuntimeError; see "## Findings".
- LegacyClient.Sell: modelled as intended: it runs the intended get (LegacyClient.Fetch), so an exception raised in a get's block escapes as itself. As written (checkbox_api.py:66-83) the block's exception is caught, the request is retried, and the get ends in RuntimeError; see "## Findings".
- LegacyClient.WaitReceiptSign: modelled as intended: it runs the intended get (LegacyClient.Fetch), so an exception raised in a get's block escapes as itself. As written (checkbox_api.py:66-83) the block's exception is caught, the request is retried, and the get ends in RuntimeError; see "## Findings".
- LegacyClient.AwaitClosed: modelled as intended: it runs the intended get (LegacyClient.Fetch), so an exception raised in a get's block escapes as itself. As written (checkbox_api.py:66-83) the block's exception is caught, the request is retried, and the get ends in RuntimeError; see "## Findings".
- LegacyClient.ShiftClose: modelled as intended: it runs the intended get (LegacyClient.Fetch), so an exception raised in a get's block escapes as itself. As written (checkbox_api.py:66-83) the block's exception is caught, the request is retried, and the get ends in RuntimeError; see "## Findings".
- Fondy.Report: the TTL cache on FondyAPI.token (fondy.py:50) is not modelled; every report requests a token. The token request's body, with its SHA-512 signature, is not modelled beyond Fondy.SignatureInput.
- Fondy.Names: only string field names are accepted; any other key gives TypeError. Python builds the dict from any hashable key (a number, a bool or None as well), and zip stops at the shorter of fields and values, so an unhashable name past that length raises nothing there. The model checks every name.
- Transactions.Processor.ProcessTransactions: modelled as intended, with the fetch's outcome as a parameter. As written, common.py:73 and :191 call `get_transactions(session=session)`, and both sources declare get_transactions without that parameter (privat24.py:108, fondy.py:171), so every fetch fails with TypeError; see "## Findings" and Transactions.Processor.CycleAsWritten.
- Pb2Gsheet.Poller.WriteTransactions: the snapshot write is taken to succeed. `write_transactions` opens and dumps the file with no handler (pb2gsheet.py:118-120), so an OSError there would escape.
- Pb2Gsheet.Poller.Reconcile: the snapshot write after each stored statement (pb2gsheet.py:180) is taken to succeed. As written, a failing write escapes after the statement's row was appended and before its notice was sent.
- Pb2Gsheet.Poller.ProcessTransactions: a failing snapshot write is not modelled. Its OSError would escape process_transactions, and `run` (pb2gsheet.py:201-205) would log it and keep the old prev, so the next cycle would append the stored row again.
- Transactions.Processor.Reconcile: the snapshot writes (common.py:66-68, called at :207 and :226) are taken to succeed; each Reconcile appends exactly one snapshot to `written`. As written, a failing write raises OSError out of the loop.
- Transactions.Processor.ProcessTransactions: a failing snapshot write is not modelled. Its OSError would escape process_transactions, and `run` (common.py:246-253) would log it and keep the old prev, so rows already appended would be appended again on the next cycle.
- Transactions.Processor.ReadTransactions: the file's existence and contents are parameters. Reading a malformed file, which raises in json.load, is not modelled.
- Concurrency: the event loop, and the interleaving of handlers with the pollers, are not modelled. Each operation runs alone.
- Logging: log lines are not modelled. FiscalHttp.LogLine and FiscalHttp.LogLineAsWritten state what one line holds.
- Fondy.Fetch: the report loop meets a finite list of page answers. A request beyond them is modelled as a failed connection.

## Findings

| source | as written | input that shows it | evidently intended | confidence | as-written member | corrected member |
|---|---|---|---|---|---|---|
| checkbox451_bot/gsheet/common.py:200 | process_transactions asks `transaction.check()`, and only the base class defines it, always True (common.py:43-44). The sources define `check_receipt` instead | a PrivatBank statement with trantype "D" in a new window: it is stored, notified and receipted | only transactions that pass the source's `check_receipt` are stored | high; not executed | Privat24.DebitStoredAsWritten | Privat24.OnlyCreditsStored, Fondy.OnlyApprovedStored |
| checkbox451_bot/checkbox_api/helpers.py:149 | `f"{message}" + f": {detail}" if detail else ""` parses as `(message + ": " + detail) if detail else ""` | an error body `{"message": "Bad"}` without detail: the logged line is empty | the message, followed by ": detail" when there is a detail | high; not executed | FiscalHttp.LogLineLosesMessage | FiscalHttp.LogLine |
| checkbox451_bot/pb2gsheet.py:174-180 | after each successful store the whole fetch is written to the snapshot file, and a later failed store returns prev | two new credits: the first is stored, the second's store fails. The next cycle stores the first again, and after a restart the second is never stored | the snapshot after a failure holds prev and the records handled before it, as common.py:197-210 later does with `temp` | high; not executed | Pb2Gsheet.RestoredAsWritten | Pb2Gsheet.RestoredIntended |
| checkbox451_bot/pb2gsheet.py:19 | the pattern needs a comma before the three words, while tests/checkbox451_bot/test_pb2gsheet.py:13-20 expects "JANE DOE" from narratives without one | "1234 **** **** 5678 24.01.2019 12:34:56 Переказ вiд JANE DOE": no match | the sender after "Переказ вiд" or "Вiд", as the newer pattern (gsheet/privat24.py:26-28) finds | high; not executed | Pb2Gsheet.NoSenderForTransfer, Pb2Gsheet.NoSenderForFrom | Privat24.SenderAfterTransfer, Privat24.SenderAfterFrom |
| checkbox451_bot/gsheet/common.py:37-38 | `__hash__` reads `self._hash_key`, which is declared (common.py:21) but never assigned (the subclasses set `id_key`), so it raises AttributeError | any non-empty window: building `set(curr)` raises, and nothing is ever stored | hash on the value at the source's `id_key` | high; not executed | Transactions.InsertedAsWritten, Transactions.PendingAsWrittenFails | Transactions.Inserted, Transactions.PendingSpec |
| checkbox451_bot/checkbox451_bot/checkbox_api.py:66-83 | the `yield` sits inside the retry loop's `try`, so an exception from the caller's block is caught as a failed attempt. The loop sends the request again and yields a second time, and contextlib raises RuntimeError | a caller whose block raises on the first response | the block's exception escapes as itself after the one request | high; not executed | LegacyClient.BlockErrorBecomesRuntime | LegacyClient.BlockErrorEscapes, LegacyClient.FetchAgrees |
| checkbox451_bot/checkbox451_bot/checkbox_api.py:185-194 | `receipt` is bound only when a reply decodes (line 185), yet the error log after the loop reads it (line 194) | ten replies that are none of them JSON: UnboundLocalError instead of the receipt error | raise "Не вдалося підписати чек" after ten polls | high; not executed | LegacyClient.WaitAsWrittenUnbound | LegacyClient.WaitGivesUp, LegacyClient.WaitBounded |
| checkbox451_bot/gsheet/common.py:191 | process_transactions (and read_transactions at common.py:73) calls `self.get_transactions(session=session)`, but privat24.py:108 and fondy.py:171 override get_transactions with no `session` parameter, so the call raises TypeError. The handler logs it and the cycle returns prev | any cycle of either source: nothing is ever fetched, stored, notified or receipted, and with no snapshot file the bot starts from [] | the fetch runs and its transactions are processed | high; not executed | Transactions.Processor.CycleAsWritten, Transactions.SourcesNeverFetch | Transactions.Processor.ProcessTransactions |
