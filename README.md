# Rotunda AI dashboard — a verified model of its core

Rotunda AI is a React dashboard for an AI sales agent. This project models
the logic the dashboard runs on the client:

- **Inbox triage.** The "Respond to Emails" page normalises the tone the
  backend reports, or guesses one from the text by keyword. It formats raw
  email records, unwraps the listing from whichever field of the response
  carries it, and filters by search text and tone. It counts complaints to
  pick a banner, and drives the complaint modal that asks the backend for a
  reply. The page is the class `ComplaintInbox.InboxPage`; each handler is a
  method that updates its fields.
- **Request building.** The API client (`src/services/api.js`) builds the
  JSON body of each request, validates the retrieval options, and picks the
  error message when the backend answers with a failure.
- **Campaigns.** The campaign table and its filter, the summary cards, the
  progress percentage, and the lead-enrichment modal (the class
  `Campaigns.EnrichPanel`).
- **Activity logs and billing.** The log table and its filter, the billing
  plans, and the rule that labels each plan's button.
- **Agent settings.** One record that the page edits a key at a time (the
  class `AgentSettings.SettingsPanel`).
- **Colour library.** The chart palette, the label-to-colour map, and the
  two lookups with their fallback chains.

JavaScript values are modelled explicitly:
- `undefined` is `None` of `Wrappers.Option`.
- Truthiness is `JsValues.Truthy`: `""`, `0`, `false` and `null` are falsy; arrays and objects are truthy.
- A chain `a || b || c` is `JsValues.FirstTruthy` / `JsValues.Or`.
- A JSON body is a `map<string, Json>`. `JSON.stringify` drops a key whose value is `undefined`, so such a key is simply absent.
- `toLowerCase` is ASCII lower-casing (`Text.Lower`). `trim` removes JavaScript's white-space and line-terminator characters (`Text.Trim`).

An awaited network call is never made. The handler receives the call's
settled outcome as a parameter (`FetchOutcome`, `ResolveOutcome`,
`EnrichOutcome`) and returns the request body it would have sent. Two more
inputs are parameters rather than constants:
- the current time, which fills a missing email timestamp;
- the page's `USE_MOCK_API` switch (it is `true` as shipped), so that both branches of `fetchEmails` are modelled.

## Model

| member | source | states |
|---|---|---|
| Tones.NormalizeTone | src/components/RespondToEmails.js:29-45 | the result is always one of the four valid tones; a missing or empty tone gives `#Generic`; any other result matches the trimmed, `#`-prefixed input ignoring case |
| Tones.NormalizeToneMatches | src/components/RespondToEmails.js:36-44 | an input whose trimmed, `#`-prefixed form equals a valid tone ignoring case normalises to that tone |
| Tones.NormalizeToneAcceptsVariants | src/components/RespondToEmails.js:36-44 | surrounding white space, a missing `#` and any letter case are all accepted |
| Tones.NormalizeValidTone | src/components/RespondToEmails.js:32-45 | each valid tone normalises to itself |
| Tones.NormalizeToneIdempotent | src/components/RespondToEmails.js:32-45 | normalising a normalised tone changes nothing |
| Tones.NormalizeTonePaddedLowerCase | src/components/RespondToEmails.js:36-44 | `" complaint "` normalises to `#Complaint` |
| Tones.NormalizeToneUpperCase | src/components/RespondToEmails.js:37-44 | `"#COMPLAINT"` normalises to `#Complaint` |
| Tones.NormalizeToneLengthMismatch | src/components/RespondToEmails.js:36-44 | a label whose trimmed, `#`-prefixed form is as long as no valid tone normalises to `#Generic` |
| Tones.NormalizeToneUnknown | src/components/RespondToEmails.js:40-44 | an unknown label such as `"urgent"` falls back to `#Generic` |
| Tones.ValidTonesDistinctLengths | src/components/RespondToEmails.js:29 | the four valid tones have pairwise different lengths, so at most one can match |
| Tones.AnyIncluded | src/components/RespondToEmails.js:71-81 | `keywords.some(k => text.includes(k))`: true exactly when some keyword occurs in the text |
| Tones.DetectToneFromContent | src/components/RespondToEmails.js:48-87 | always a valid tone: complaint iff a complaint keyword occurs in the lower-cased `subject + " " + body`; appreciation iff no complaint keyword and some appreciation keyword; feedback and generic likewise down the priority order |
| Tones.DetectToneMonotone | src/components/RespondToEmails.js:48-87 | adding text around the subject and body can only raise the detected tone in the priority order complaint > appreciation > feedback > generic |
| Tones.AnyIncludedExtended | src/components/RespondToEmails.js:71-81 | a keyword found in a text is still found once text is added around it |
| Tones.NoneIncluded | src/components/RespondToEmails.js:71-81 | a text lacking one letter of each keyword matches none of them |
| Tones.DetectComplaintExample | src/components/RespondToEmails.js:52-73 | "Product not working" is a complaint |
| Tones.DetectComplaintBeatsThanks | src/components/RespondToEmails.js:70-78 | "Thank you for fixing the issue" is a complaint: complaint keywords win over appreciation |
| Tones.DetectSubstringNotWord | src/components/RespondToEmails.js:52-73 | keywords match as substrings: "I am unhappy" is a complaint |
| Tones.DetectAppreciationExample | src/components/RespondToEmails.js:58-78 | "Thank you so much" is appreciation |
| EmailRecords.FormatEmail | src/components/RespondToEmails.js:93-108 | a formatted email always has a valid tone, non-empty sender, subject and campaign, and a truthy id |
| EmailRecords.FormatEmailTone | src/components/RespondToEmails.js:95-98 | the first present of `tone`, `tone_category` and `sentiment` is normalised; without any of them the tone is detected from subject and body (or snippet) |
| EmailRecords.SuppliedToneOrder | src/components/RespondToEmails.js:95 | the supplied label is `tone` when present, else `tone_category`, else `sentiment`, and absent only when all three are falsy |
| EmailRecords.FormatEmailId | src/components/RespondToEmails.js:101 | the id is the first truthy of `id`, `message_id` and `uid`, else the position plus one |
| EmailRecords.FormatEmailDetectsComplaint | src/components/RespondToEmails.js:96-98 | a record without a tone whose subject says "Product not working" is formatted as a complaint |
| EmailRecords.FormatEmailDetectsAppreciation | src/components/RespondToEmails.js:96-98 | a record without a tone whose subject says "Thank you so much" is formatted as appreciation |
| EmailRecords.FormatEmailData | src/components/RespondToEmails.js:90-110 | anything but an array gives the empty list; an array gives one formatted email per record, in order |
| EmailRecords.EmailsList | src/components/RespondToEmails.js:161-170 | the listing is the first truthy of `emails`, `data`, the response itself when it is an array, and `messages`, else nothing |
| EmailRecords.FirstTruthyKeyShadows | src/components/RespondToEmails.js:162-172 | a truthy `emails` field that is not an array hides `data` and `messages` and yields an empty inbox |
| EmailRecords.FilteredEmails | src/components/RespondToEmails.js:201-207 | an order-preserving subsequence holding exactly the emails that match search and tone, each as often as in the inbox; empty search with `all` shows everything |
| EmailRecords.EmptyQueryMatchesAll | src/components/RespondToEmails.js:201-207 | with an empty search and the `all` tone every email matches |
| EmailRecords.ComplaintCount | src/components/RespondToEmails.js:293 | the complaint count never exceeds the number of emails |
| EmailRecords.ComplaintRatioFlags | src/components/RespondToEmails.js:293-299 | at most one banner flag is set; high iff complaints are at least 75%, medium iff in [50%, 75%), low iff in [25%, 50%); an empty inbox shows none |
| ComplaintInbox.RetrieveRequest | src/components/RespondToEmails.js:152-160 | the page passes every configured field (address, password, IMAP server and port, folder, limit, unread-only flag, Gmail switch) to the client, and leaves the agent id and Gmail paths to the client's defaults |
| ComplaintInbox.ConfigGuardMatchesApi | src/components/RespondToEmails.js:139-144 | the page's "configure first" guard lets a configuration through exactly when the client's own validation accepts it |
| ComplaintInbox.FailureMessage | src/components/RespondToEmails.js:176 | the error shown is the failure's own message when it has one, else the default text; never empty |
| ComplaintInbox.NullBodyMessageShown | src/components/RespondToEmails.js:174-176 | a retrieval whose error body is `null` shows the `TypeError`'s own text, not the default message |
| ComplaintInbox.ComplaintRequest | src/components/RespondToEmails.js:254-262 | the resolution request carries the preview, the sender and subject as customer info, and the page's agent id |
| ComplaintInbox.InboxPage.constructor | src/components/RespondToEmails.js:113-134 | the initial state: empty inbox, no error, empty search, `all` tones, modal closed, default configuration |
| ComplaintInbox.InboxPage.Visible | src/components/RespondToEmails.js:201-207 | the listed emails all match the current search and tone, and are no more than the inbox |
| ComplaintInbox.InboxPage.Banner | src/components/RespondToEmails.js:293-299 | a banner is shown only for a non-empty inbox |
| ComplaintInbox.InboxPage.EditConfig | src/components/RespondToEmails.js:125-134 | the configuration is replaced and nothing else changes |
| ComplaintInbox.InboxPage.FetchEmails | src/components/RespondToEmails.js:137-180 | outside mock mode an incomplete configuration only sets the "configure first" error; otherwise loading ends, and the inbox becomes the formatted listing or the error becomes the failure message; the modal state is untouched and its invariant kept |
| ComplaintInbox.InboxPage.HandleEmailClick | src/components/RespondToEmails.js:236-244 | a complaint opens the modal on that email with a cleared reply and error; any other email changes nothing |
| ComplaintInbox.InboxPage.CloseComplaintModal | src/components/RespondToEmails.js:281-287 | the modal closes and the selection, reply and reply error are cleared; the rest is unchanged |
| ComplaintInbox.InboxPage.Regenerate | src/components/RespondToEmails.js:736-740 | the Regenerate button clears the reply and its error and keeps the modal open on the same email; the rest is unchanged |
| ComplaintInbox.InboxPage.HandleGenerateResponse | src/components/RespondToEmails.js:246-271 | without a selection no request is made and nothing changes; otherwise the request for the selected email is returned, loading ends, and the reply holds the `resolution` or the error holds the failure message |
| EmailFixture.MockTones | src/mocks/emailMocks.js:4-222 | the fixture holds 15 records, each with a valid tone, and the complaints sit at positions 0, 4, 8, 10 and 14 |
| EmailFixture.ComplaintsAtMockPositions | src/mocks/emailMocks.js:4-222 | fifteen emails with complaints at exactly those positions count five complaints |
| EmailFixture.FormatKeepsValidTone | src/components/RespondToEmails.js:95-97 | a record that already carries a valid tone keeps it through formatting |
| EmailFixture.FormatKeepsValidTones | src/components/RespondToEmails.js:90-110 | formatting a list of records with valid tones keeps every tone in place |
| EmailFixture.MockInbox | src/mocks/emailMocks.js:4-222 | the mock inbox shows five complaints out of fifteen (33%), so only the low banner is raised |
| Api.ApiCallResult | src/services/api.js:26-36 | a successful response yields its parsed body (or `{}`); a failure on a `null` body is the `TypeError` of reading `detail`; any other failure throws a truthy value: `detail` when truthy, else `message` when truthy, else `error` when truthy, and `API Error: <status>` when the body does not parse |
| Api.ApiErrorFallback | src/services/api.js:30 | with a readable body and no truthy `detail`, `message` or `error` the error is `API Error: <status>` |
| Api.ApiErrorMessageBeforeError | src/services/api.js:30 | `message` is preferred to `error` when `detail` is falsy |
| Api.ErrorText | src/services/api.js:32 | the message of `new Error(value)` is `String(value)`: a string unchanged, an object `[object Object]`, an empty array the empty string |
| Api.ReportedMessage | src/services/api.js:30-32 | a thrown value is reported as its `String` conversion; the null-body `TypeError` reports its own non-empty engine text |
| Api.EmptyDetailArrayMessage | src/services/api.js:30-32 | an empty `detail` array is truthy and wins over `message`, yet the reported message is empty |
| Api.ValidationDetailMessage | src/services/api.js:30-32 | a `detail` list of objects (a validation error) is reported as `[object Object]` |
| Api.ChatBody | src/services/api.js:61-81 | the chat body has exactly six keys; flags default to false, the agent id to the default agent, the calendar URL to null |
| Api.EnrichLeadBody | src/services/api.js:86-94 | the body holds the lead data and the agent id, defaulted |
| Api.ResolveComplaintBody | src/services/api.js:179-188 | the body holds exactly the content, the customer info (`{}` when omitted) and the agent id (the default when omitted) |
| Api.SalesForecastBody | src/services/api.js:99-113 | `historical_data` is sent exactly when it is truthy, with the query and the agent id |
| Api.MarketingAnalysisBody | src/services/api.js:118-132 | `campaign_data` is sent exactly when it is truthy, with the query and the agent id |
| Api.RetrieveEmailsBody | src/services/api.js:205-256 | a missing address or a missing password without Gmail is refused with its message; otherwise the payload has the base keys with their defaults, the password only without Gmail, and each Gmail path only when given |
| Campaigns.FilteredCampaigns | src/components/Campaigns.js:114-118 | an order-preserving subsequence holding exactly the campaigns whose name contains the query (ignoring case) and whose status passes the filter |
| Campaigns.EmptyQueryMatchesName | src/components/Campaigns.js:114-118 | with an empty search only the status filter decides |
| Campaigns.AllCampaignsShown | src/components/Campaigns.js:114-118 | empty search with `all` shows every campaign in order |
| Campaigns.ActiveStatuses | src/components/Campaigns.js:30-103 | the table holds six campaigns, active at positions 0, 1, 3 and 5 |
| Campaigns.ActiveCampaigns | src/components/Campaigns.js:30-118 | the `active` filter shows campaigns 1, 2, 4 and 6, in that order |
| Campaigns.SummaryCardsMatchTable | src/components/Campaigns.js:500-544 | the hard-coded summary cards agree with the table: 6 campaigns, 4 active, 7,150 prospects, 195 meetings |
| Campaigns.ProgressPercent | src/components/Campaigns.js:581 | zero prospects show 0%; otherwise the percentage is `contacted / prospects * 100` rounded half up, and at most 100 when contacted does not exceed prospects |
| Campaigns.TableProgressBounded | src/components/Campaigns.js:30-103 | every campaign in the table has contacted at most its prospects, so every progress bar is at most 100% |
| Campaigns.LeadData | src/components/Campaigns.js:140-145 | the lead always has the email; name, company and title are sent exactly when non-empty |
| Campaigns.EnrichPanel.constructor | src/components/Campaigns.js:108-112 | the modal starts closed with an empty form and no result or error |
| Campaigns.EnrichPanel.HandleEnrichLead | src/components/Campaigns.js:129-153 | an empty email only sets "Email is required" and sends nothing; otherwise the lead request is returned, loading ends, and the result holds `enriched_lead` or the error holds the failure message |
| Campaigns.EnrichPanel.OpenEnrichModal | src/components/Campaigns.js:156-159 | the modal opens and nothing else changes |
| Campaigns.EnrichPanel.ResetEnrichModal | src/components/Campaigns.js:161-167 | the modal closes with an empty form and no result or error |
| Campaigns.EnrichPanel.EnrichAnother | src/components/Campaigns.js:450-454 | the result and the form are cleared and the modal stays as it was |
| LogsBilling.LogIds | src/components/LogsBilling.js:21-32 | the ten log entries are numbered 1 to 10 in order |
| LogsBilling.FilteredLogs | src/components/LogsBilling.js:83-88 | an order-preserving subsequence holding exactly the entries whose action or campaign contains the query (ignoring case) and whose type passes the filter |
| LogsBilling.EmptyQueryMatchesAction | src/components/LogsBilling.js:83-88 | with an empty search only the type filter decides |
| LogsBilling.AllLogsShown | src/components/LogsBilling.js:83-88 | empty search with `all` shows every entry in order |
| LogsBilling.AllTenLogsShown | src/components/LogsBilling.js:21-32 | the unfiltered log shows ten entries |
| LogsBilling.EmailKinds | src/components/LogsBilling.js:21-32 | the email entries sit at positions 0, 2, 5 and 8 |
| LogsBilling.EmailLogs | src/components/LogsBilling.js:21-88 | the `email` type filter shows entries 1, 3, 6 and 9, in order |
| LogsBilling.HealthcareActionUnmatched | src/components/LogsBilling.js:25 | the action of entry 4 contains every letter of "startup" but not the word |
| LogsBilling.StartupMatches | src/components/LogsBilling.js:21-88 | the query "startup" matches exactly the entries at positions 4 and 9 |
| LogsBilling.StartupLogs | src/components/LogsBilling.js:21-88 | searching "startup" shows entries 5 and 10, found through their campaign |
| LogsBilling.PlanButtonLabel | src/components/LogsBilling.js:288-290 | the button reads "Current Plan" exactly for Growth and "Upgrade" for every other plan |
| LogsBilling.PopularPlanIsCurrent | src/components/LogsBilling.js:34-76 | three plans in increasing price; exactly one, Growth, is popular, and it is the one labelled "Current Plan" |
| AgentSettings.Toggled | src/components/AgentSettings.js:37-39 | the clicked key becomes the boolean negation of its truthiness (absent reads as falsy); every other key is unchanged |
| AgentSettings.WithValue | src/components/AgentSettings.js:41-43 | the key gets the new value; every other key is unchanged |
| AgentSettings.ToggleTwice | src/components/AgentSettings.js:37-39 | two clicks on a switch holding a boolean restore the record |
| AgentSettings.ToggleTwiceCoerces | src/components/AgentSettings.js:37-39 | two clicks on a non-boolean key replace it by its truthiness |
| AgentSettings.ToggleKeepsWellTyped | src/components/AgentSettings.js:37-39 | clicking a switch keeps the record's keys and value kinds |
| AgentSettings.SliderKeepsWellTyped | src/components/AgentSettings.js:41-43 | moving a slider keeps the record's keys and value kinds |
| AgentSettings.ToneKeepsWellTyped | src/components/AgentSettings.js:286-294 | choosing a tone option keeps the record well typed |
| AgentSettings.TimezoneKeepsWellTyped | src/components/AgentSettings.js:330-341 | choosing a timezone option keeps the record well typed |
| AgentSettings.InitialSwitches | src/components/AgentSettings.js:19-35 | the phone channel and A/B testing start off, every other switch on |
| AgentSettings.InitialSliders | src/components/AgentSettings.js:19-35 | aggressiveness 60, response delay 30 and follow-ups 5 lie within the slider ranges [0, 100], [0, 120] and [1, 10] |
| AgentSettings.InitialSettingsValid | src/components/AgentSettings.js:19-35 | the initial record is well typed, with a tone and timezone among the select options |
| AgentSettings.SettingsPanel.constructor | src/components/AgentSettings.js:19-35 | the page starts from the initial record |
| AgentSettings.SettingsPanel.HandleToggle | src/components/AgentSettings.js:37-39 | the record becomes the toggled record, and stays well typed for a switch key |
| AgentSettings.SettingsPanel.HandleSliderChange | src/components/AgentSettings.js:41-43 | the key holds `parseInt` of the slider's text and nothing else changes; stays well typed for a slider key |
| AgentSettings.SettingsPanel.HandleToneChange | src/components/AgentSettings.js:288 | only the tone changes; stays well typed for a listed option |
| AgentSettings.SettingsPanel.HandleTimezoneChange | src/components/AgentSettings.js:332 | only the timezone changes; stays well typed for a listed option |
| AgentSettings.SliderStoresRenderedValue | src/components/AgentSettings.js:41-43 | a slider value rendered as a numeral is stored back as exactly that number |
| AgentSettings.PhoneNoteFollowsSwitch | src/components/AgentSettings.js:183-187 | the setup note under the phone channel shows on a fresh page and flips with each click on that switch |
| Text.ParseInt | src/components/AgentSettings.js:42 | `parseInt` yields a number exactly when a digit follows the leading white space and optional sign |
| Text.ParseDecimal | src/components/AgentSettings.js:42 | `parseInt` of a numeral, followed by anything but a digit, gives back the number |
| Text.Trim | src/components/RespondToEmails.js:36 | the trimmed text neither starts nor ends with white space, is no longer than the input, and is empty only for a blank input |
| Text.TrimBlank | src/components/RespondToEmails.js:36 | the trimmed text is empty exactly when the input is blank |
| Text.TrimPadded | src/components/RespondToEmails.js:36 | white space around a core that starts and ends with a non-space is removed, leaving exactly the core |
| Text.TrimIdempotent | src/components/RespondToEmails.js:36 | trimming twice is trimming once |
| Colors.AliasesAgree | src/constants/colors.js:41-59 | `Emails`, `emails` and `value` share the default indigo; `LinkedIn`/`linkedin` and `Calls`/`calls` agree; every mapped colour is a palette colour |
| Colors.PaletteColours | src/constants/colors.js:9-24 | the default is the palette's `emails` colour, and every palette colour is non-empty |
| Colors.Mapped | src/constants/colors.js:41-59 | a label is mapped exactly when the map has it, and always to a palette colour |
| Colors.GetColor | src/constants/colors.js:67-69 | a mapped key gives its colour; any other key gives the fallback, indigo when none is passed |
| Colors.GetColorDefaultInPalette | src/constants/colors.js:67-69 | without a fallback the result is always a non-empty palette colour |
| Colors.GetColorFromEntry | src/constants/colors.js:76-84 | the result is never empty |
| Colors.EntryOwnColourFirst | src/constants/colors.js:78-83 | an entry's own fill wins, then its own colour; with no candidate at all the result is indigo |
| Colors.EntryFallsBackToLabels | src/constants/colors.js:80-82 | without a colour of its own, the payload's fill comes first, then the name's mapped colour, then the data key's |
| Colors.LabelledEntryInPalette | src/constants/colors.js:81-83 | an entry without colours of its own always gets a palette colour |

## Left out

- Network I/O: `fetch`, the base URL, headers, `response.json()` and `console` logging. A call's outcome is a parameter.
- `healthCheck`, `configCheck`, `processFile`, `generateEmailSchema` and `generateHtmlEmail` only forward to the backend and have no client-side logic to state.
- The React pages outside the core are not part of this model: Dashboard, Chatbot, EmailGenerator, the loader and App.
- The `semanticColors` palette: constants that no lookup reads.
- Each page's transient `loading = true` state. Every modelled handler runs to the settled outcome, so only the final state is observable.
- localStorage persistence of the email configuration, the Tenor script injection, clipboard copying, timers and `document.body` scroll locking.
- The direct form setters: the search box, the tone and status selects, and the form fields bound through `setEnrichForm` and `setEmailConfig`. Each only replaces one field.
- The "Reset Defaults" and "Save Changes" buttons of the settings page have no handler in the source, so there is nothing to model.
- Floating-point arithmetic. The complaint percentage is compared by integer cross-multiplication. The progress percentage is the exact quotient rounded half up; it agrees with `Math.round` of the floating-point value except where that value's rounding error crosses a .5 boundary.
- Number formatting with `toLocaleString`, and `String(tone)` of a non-string tone: tones and ids are modelled as strings or numbers only.
- Case folding of non-ASCII letters: `Text.Lower` lower-cases A–Z only.
- `null` versus `undefined`: an absent or `null` field is `None` in both cases. A destructuring default replaces only `undefined`; a caller passing `null` explicitly is not modelled.
- Text.ParseInt: the `0x` prefix (hexadecimal) and non-decimal radixes of `parseInt` are not modelled; a range input only delivers decimal numerals.
- AgentSettings.SettingsPanel.HandleSliderChange: requires the slider text to parse. `parseInt` of text without a digit gives `NaN`, which the source would store; a range input never delivers such text.
- Api.NullBodyTypeErrorText: the wording of the `TypeError` raised by reading a property of `null` depends on the JavaScript engine; the model uses the V8 text, and only its being non-empty matters to the page.
- EmailRecords.FormatEmailData, EmailRecords.EmailsList, EmailRecords.FilteredEmails: the typed records cannot hold three inputs that make the page throw. The first is a `null` retrieval response, whose `response.emails` read throws into the page's catch. The second is a `null` element of the listing, whose `email.tone` read throws the same way. The third is a sender, subject or body that is not a string: it is kept by the formatting, and its `toLowerCase()` throws when the filter renders. Each of these surfaces a `TypeError` message or a render failure, which the model does not produce.
- Api.ErrorText: JSON numbers are integers here and print in plain decimal. JavaScript prints numbers of 1e21 and beyond in exponent notation, and fractions are not modelled.
- Colors.GetColor: keys inherited from `Object.prototype` (such as `"toString"`) are treated as absent, whereas the source would return the inherited function.
- EmailRecords.ComplaintCount: its contract bounds the count only. The exact count for the mock inbox is proved by `EmailFixture.MockInbox`.
- The current time (`new Date().toISOString()`) and the `USE_MOCK_API` switch are parameters. The mock's 800 ms delay is not modelled.
