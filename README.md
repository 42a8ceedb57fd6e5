# TrueNorth Materials website — verified model of its logic

The site is a Next.js marketing site with a small dashboard. Most of it is
animated presentation. This project models the deterministic logic inside it
and proves what that logic promises:

- **Form intake** (`submitForm`, module `SubmitForm`). The action picks one of five
  schemas from the submitted form type and validates a flat field map against it.
  It reports every failing field under its own name. For a valid submission it
  derives the e-mail subject, renders the HTML body and thanks the visitor.
- **The public chat widget** (module `Chatbot`, class `ChatWidget`). The widget
  matches keywords by category in a fixed order. If nothing matches, it falls back
  to greeting, thanks, farewell and identity patterns, and then to a default reply.
  It keeps an append-only message list.
- **The dashboard chat window** (module `ChatbotWindow`, class `ChatWindow`). Four
  ordered keyword rules are tried on the lower-cased input. The fallback reply
  quotes the original input.
- **Partnership matching** (module `PartnershipMatching`, class `PartnershipPage`).
  It covers:
  - the startup filter;
  - the industry-mismatch rule;
  - the descending sort by score;
  - keyword overlap;
  - the secure-chat handlers and the timeline.
- **Compliance reporting** (module `ComplianceReporting`, class `CompliancePage`).
  It covers the optional-equality report filter, badge variants and impact-score
  bands.
- **The platform diagram** (module `Diagram`, class `DiagramState`). It covers:
  - the two most recent active connections;
  - the hover / agentic-flow phases and the leave timer;
  - tab and core lookups that fall back to a default;
  - connection geometry.
- **The TRL scale** (module `TrlScale`, class `TrlScaleState`). It covers the
  nine-level table with its three phases, and the single-selection toggle.
- **The landing-page navigation** (module `Nav`). Each section id becomes a link
  label.

Two modules support the rest:

- `Text` holds the string operations the components use:
  - ASCII lower and upper case;
  - substring tests;
  - trimming;
  - character replacement.
- `Wrappers` holds `Option`.

Some things the model cannot observe are passed in as parameters:

- the e-mail syntax check;
- whether the mail API key is set;
- what the mail service did;
- random picks;
- clock readings;
- score functions.

Timers become explicit event methods.

## Model

| member | source | states |
|---|---|---|
| SubmitForm.Submit | app/actions/submit-form.ts:103-233 | An absent or unknown form type is rejected with "Invalid form type." before any validation. A validation failure answers "Validation failed. Please check your input." with an error map that reports exactly the failing fields, and sends nothing. A valid submission always answers with the thank-you for its form type, whatever the mail service does. The e-mail is composed only when the API key is set. |
| SubmitForm.FieldErrors | app/actions/submit-form.ts:129-139 | Errors are reported exactly when validation raised an issue. The map's keys are exactly the failing fields, and each holds the one message its rule raised. |
| SubmitForm.CollectFieldErrors | app/actions/submit-form.ts:130-133 | The map has a key for exactly the paths some issue names. The last issue for a path decides its one-message list, so later issues overwrite earlier ones. |
| SubmitForm.ReportsFromCollected | app/actions/submit-form.ts:129-138 | With distinct field names, the collected map is exactly the per-field failure report. |
| SubmitForm.ErrorKeysAreFailures | app/actions/submit-form.ts:131-133 | The collected keys are exactly the names of the fields whose rule fails. |
| SubmitForm.OnlyIssueIsLast | app/actions/submit-form.ts:131-133 | When no two issues share a path, every issue is the last one for its path, so none is overwritten. |
| SubmitForm.IssuesCoverFailures | app/actions/submit-form.ts:7-87 | With distinct field names, the issues of one pass have distinct paths. Every issue names a failing field, and every failing field has its issue. |
| SubmitForm.IssuesAreFailures | app/actions/submit-form.ts:7-87 | Every issue's path is the name of a field whose rule fails. |
| SubmitForm.FailuresHaveIssues | app/actions/submit-form.ts:7-87 | Every field whose rule fails contributes an issue with that field's name and message. |
| SubmitForm.IssuesDistinct | app/actions/submit-form.ts:7-87 | With distinct field names, no two issues share a path. |
| SubmitForm.FieldRuleIff | app/actions/submit-form.ts:7-87 | Each rule accepts exactly its values. Required text must be present and non-empty, and otherwise fails with its declared message. Optional text always passes. An e-mail field must pass the e-mail check, and otherwise fails with "Invalid email address". A choice must be one of its listed options, or absent if optional. The form type must equal the schema's own. |
| SubmitForm.NoIssuesIff | app/actions/submit-form.ts:129 | Validation passes if and only if no field's rule fails. |
| SubmitForm.SchemasWellFormed | app/actions/submit-form.ts:7-95 | Exactly the five known form types have a schema. Each schema has distinct field names and a form-type field fixed to its own name. |
| SubmitForm.SchemaNamesDistinct | app/actions/submit-form.ts:109-124 | Every schema the switch can choose has distinct field names. |
| SubmitForm.RequestDemoWellFormed | app/actions/submit-form.ts:7-12 | The demo-request schema is well formed for "Request a Demo". |
| SubmitForm.StartupPartnershipWellFormed | app/actions/submit-form.ts:14-31 | The startup schema is well formed for "Startup Partnership". |
| SubmitForm.IndustryPartnershipWellFormed | app/actions/submit-form.ts:33-50 | The industry schema is well formed for "Industry Partnership". |
| SubmitForm.CanadianPartnershipsWellFormed | app/actions/submit-form.ts:52-79 | The Canadian-partnerships schema is well formed for "Canadian Partnerships". |
| SubmitForm.ContactUsWellFormed | app/actions/submit-form.ts:81-87 | The contact schema is well formed for "Contact Us". |
| SubmitForm.DistinctTail | app/actions/submit-form.ts:7-87 | The fields after the first keep distinct names, none equal to the first's. |
| SubmitForm.EmptySubmissionReportsRequired | app/actions/submit-form.ts:7-87 | A submission carrying only the form type fails on exactly the schema's required fields: required text, e-mail and non-optional choices. |
| SubmitForm.IndustryPartnershipCompanyOnly | app/actions/submit-form.ts:33-50 | An industry submission with only the company name fails on exactly the other nine required fields. |
| SubmitForm.ContactUsExampleIsValid | app/actions/submit-form.ts:81-87 | A contact submission with a name, an accepted e-mail and a message has no issues. |
| SubmitForm.SubjectIdentifierPriority | app/actions/submit-form.ts:151-160 | The subject identifier is the value of the first non-empty key among companyName, organizationName, name and contactName, or "N/A" when all are empty or absent. |
| SubmitForm.SubjectPrefersOrganization | app/actions/submit-form.ts:154-159 | organizationName wins over contactName. |
| SubmitForm.ValidatedDataExact | app/actions/submit-form.ts:111-124 | The validated data holds a key exactly when the key is submitted and the schema declares it. It keeps the submitted value, and undeclared keys are dropped. |
| SubmitForm.LookupAppend | app/actions/submit-form.ts:152-159 | Looking a key up in a joined entry list finds the earlier entry first. |
| SubmitForm.SpacesRemoved | app/actions/submit-form.ts:176 | Inserting spaces before capitals only adds spaces: removing them gives back the key. |
| SubmitForm.SpaceBeforeCapitalsShape | app/actions/submit-form.ts:176 | The spaced key is no shorter than the key. It ends with the key's last character, and starts with the key's first character unless that is a capital. |
| SubmitForm.SpaceBeforeCapitalsAppend | app/actions/submit-form.ts:176 | Spacing distributes over concatenation. |
| SubmitForm.NoCapitalsUnchanged | app/actions/submit-form.ts:176 | A key without capitals is not changed. |
| SubmitForm.SpacesMarkCapitals | app/actions/submit-form.ts:176 | In the spaced form of a space-free key, a space stands exactly before each capital, and the result does not start with a capital. |
| SubmitForm.MarksAcrossJoin | app/actions/submit-form.ts:176 | The space-before-capital property survives prefixing one (possibly spaced) character. |
| SubmitForm.TitleCaseOfCamelName | app/actions/submit-form.ts:175-178 | A camelCase key's title is its first letter upper-cased followed by the spaced rest. With the spaces removed, it is the key with its first letter upper-cased. |
| SubmitForm.ShownValue | app/actions/submit-form.ts:181-188 | An empty value shows as "Not provided". Any other value shows with every newline replaced by `<br>`, and no newline remains. |
| SubmitForm.NonEmptyShown | app/actions/submit-form.ts:181-183 | Replacing newlines never empties a non-empty value. |
| SubmitForm.MultiLineValue | app/actions/submit-form.ts:181-183 | Lines joined by newlines are shown joined by `<br>`. |
| SubmitForm.RenderBody | app/actions/submit-form.ts:165-199 | The body-building loop produces the header, one block per validated entry in order (skipping formType), and the footer. |
| SubmitForm.AppendEntries | app/actions/submit-form.ts:171-191 | The entry loop skips the formType key. Every other entry appends one block, its title-cased key and its shown value (line breaks as `<br>`, empty as "Not provided"), in entry order. |
| SubmitForm.RenderStep | app/actions/submit-form.ts:185-190 | Appending the next block keeps the loop's partial body equal to the header plus the blocks of the entries done. |
| SubmitForm.BlocksAppend | app/actions/submit-form.ts:171-191 | The blocks of two entry lists are the blocks of each, concatenated. |
| SubmitForm.BlocksCons | app/actions/submit-form.ts:171-191 | The blocks of a list are its first entry's block followed by the blocks of the rest. |
| SubmitForm.BlocksSnoc | app/actions/submit-form.ts:171-191 | Appending an entry appends its block. |
| SubmitForm.BlocksSkip | app/actions/submit-form.ts:172 | A formType entry contributes nothing. |
| SubmitForm.BodySkipsFormType | app/actions/submit-form.ts:172 | Removing the formType entry does not change the body. |
| SubmitForm.BodyShowsEntry | app/actions/submit-form.ts:171-191 | Every entry other than formType appears in the body as its title and shown value. |
| Chatbot.ChooseAnswer | components/Chatbot.tsx:89-124 | The nested category/keyword loops and the pattern tests choose the answer that the ordered classification defines. |
| Chatbot.FindBestResponse | components/Chatbot.tsx:89-125 | The response is the text of the classified answer for the input and the random greeting pick. |
| Chatbot.ChatWidget.constructor | components/Chatbot.tsx:25-34 | The widget starts with the welcome message (id 1, from the bot), an empty input and no pending reply. |
| Chatbot.ChatWidget.SetInput | components/Chatbot.tsx:311 | Typing changes only the input. |
| Chatbot.ChatWidget.HandleSendMessage | components/Chatbot.tsx:127-152 | Blank or whitespace input changes nothing. Otherwise the user message is appended with id length+1, the input is cleared, typing starts, and a reply is scheduled with id length+2 for the sent text. |
| Chatbot.ChatWidget.TypingDelayElapsed | components/Chatbot.tsx:142-151 | A due reply appends one bot message with its scheduled id and the best response for its text. It leaves the pending set and clears the typing flag. |
| Chatbot.AnyKeywordIff | components/Chatbot.tsx:94-96 | A category matches exactly when one of its keywords is a substring of the lower-cased input. |
| Chatbot.FirstMentionedAt | components/Chatbot.tsx:93-99 | The first matching category in declaration order is chosen. |
| Chatbot.FirstMentionedStep | components/Chatbot.tsx:93-99 | Categories are tried head first, and the first that matches stops the search. |
| Chatbot.NothingMentioned | components/Chatbot.tsx:93-99 | No category is chosen exactly when no category matches. |
| Chatbot.LeastMentioned | components/Chatbot.tsx:93-99 | If category j matches, the chosen category is j or one declared before it. |
| Chatbot.FirstCategoryWins | components/Chatbot.tsx:46-99 | If category i is the first that matches, the answer is that category's response. |
| Chatbot.PatternRepliesInOrder | components/Chatbot.tsx:93-124 | Each kind of answer is given exactly when its test holds and every earlier test fails. The order is categories, greeting, thanks, farewell, identity, then default. |
| Chatbot.CaseInsensitive | components/Chatbot.tsx:90 | Lower-casing the input first does not change the answer. |
| Chatbot.DemoBeforePricing | components/Chatbot.tsx:63-74 | An input mentioning "demo" gets a category answer from demo or an earlier category, never pricing. |
| Chatbot.EmailMeansAi | components/Chatbot.tsx:47-61 | An input containing "email" that mentions no services keyword gets the AI answer, because "email" contains "ai". |
| Chatbot.EmailContainsAi | components/Chatbot.tsx:51-52 | Any text containing "email" contains "ai". |
| Chatbot.EmailMeExample | components/Chatbot.tsx:47-61 | "Email me" gets the AI answer. |
| Chatbot.LowerFirst | components/Chatbot.tsx:90 | Lower-casing text whose tail has no capitals changes only the first character. |
| ChatbotWindow.ComposeReply | components/dashboard/chatbot/chatbot-window.tsx:58-84 | The reply is that of the first satisfied rule in order, or the fallback. |
| ChatbotWindow.BotMessage | components/dashboard/chatbot/chatbot-window.tsx:86-91 | The bot message is stamped one past the clock reading and carries the reply's content. |
| ChatbotWindow.ChatWindow.constructor | components/dashboard/chatbot/chatbot-window.tsx:25-34 | The window starts with one bot greeting, an empty input and nothing loading. |
| ChatbotWindow.ChatWindow.SetInput | components/dashboard/chatbot/chatbot-window.tsx:167 | Typing changes only the input. |
| ChatbotWindow.ChatWindow.HandleSend | components/dashboard/chatbot/chatbot-window.tsx:48-57 | Blank input changes nothing. Otherwise exactly one user message with the input is appended, the input is cleared, loading starts, and a reply is scheduled. |
| ChatbotWindow.ChatWindow.BotTimerElapsed | components/dashboard/chatbot/chatbot-window.tsx:57-94 | Exactly one bot message answering the oldest pending input is appended, and loading ends. |
| ChatbotWindow.RuleTable | components/dashboard/chatbot/chatbot-window.tsx:61-84 | The rules are tried in order: strength with carbon nanotube, partnership with graphene, compliance with lithium, help or hello or hi. The first satisfied rule wins, and none satisfied means the fallback. |
| ChatbotWindow.TwoWordRule | components/dashboard/chatbot/chatbot-window.tsx:61-76 | A two-clause rule fires exactly when both words occur. |
| ChatbotWindow.GreetingRule | components/dashboard/chatbot/chatbot-window.tsx:79 | The help rule fires exactly when "help", "hello" or "hi" occurs. |
| ChatbotWindow.RulesIgnoreCase | components/dashboard/chatbot/chatbot-window.tsx:59 | The rules see the lower-cased input, so whether a rule fires, and which rule reply is given, do not depend on case. |
| ChatbotWindow.FallbackQuotesInput | components/dashboard/chatbot/chatbot-window.tsx:83 | When no rule fires, the reply quotes the original input, not the lower-cased one. |
| ChatbotWindow.WhatIsThisGetsHelp | components/dashboard/chatbot/chatbot-window.tsx:79-81 | "what is this" gets the help text, because "this" contains "hi". |
| PartnershipMatching.FilterIff | app/dashboard/partnership-matching/page.tsx:256-265 | A startup passes exactly when it is listed and meets all four filter conditions: TRL range, funding stage, technology area and search term. |
| PartnershipMatching.FilterIsSubsequence | app/dashboard/partnership-matching/page.tsx:256-265 | Filtering keeps the startups' order. |
| PartnershipMatching.ListedPassFilters | app/dashboard/partnership-matching/page.tsx:252-298 | Every listed match is a sample startup that passes the filters, within the TRL bounds, scored by the score function, with no industry mismatch. |
| PartnershipMatching.EveryPassingStartupListed | app/dashboard/partnership-matching/page.tsx:252-298 | Every startup that passes, when there is no mismatch, is listed with its score. |
| PartnershipMatching.IndustryMismatchEmpties | app/dashboard/partnership-matching/page.tsx:267-276 | If a partner is selected and a non-empty industry focus differs from its industry, nothing is listed. |
| PartnershipMatching.AnyStageListsNothing | app/dashboard/partnership-matching/page.tsx:260 | Choosing "Any Stage" stores "any", which no startup's stage equals, so nothing is listed. |
| PartnershipMatching.AnyIndustryListsNothing | app/dashboard/partnership-matching/page.tsx:267-276 | Choosing "Any Industry" with a sample partner selected lists nothing. |
| PartnershipMatching.NothingPasses | app/dashboard/partnership-matching/page.tsx:256-265 | If no startup passes, the filtered list is empty. |
| PartnershipMatching.InitialFiltersKeepAll | app/dashboard/partnership-matching/page.tsx:235-241 | The initial filters (TRL 3 to 7, nothing else) keep all four sample startups. |
| PartnershipMatching.ScoredMembers | app/dashboard/partnership-matching/page.tsx:278-292 | The scored list holds exactly the filtered startups, each with its score. |
| PartnershipMatching.InsertPermutes | app/dashboard/partnership-matching/page.tsx:293 | Inserting a match adds exactly that match. |
| PartnershipMatching.SortPermutes | app/dashboard/partnership-matching/page.tsx:293 | Sorting is a permutation. |
| PartnershipMatching.InsertSorted | app/dashboard/partnership-matching/page.tsx:293 | Inserting into a list sorted by descending score keeps it sorted. |
| PartnershipMatching.SortSorted | app/dashboard/partnership-matching/page.tsx:293 | The sorted list has non-increasing overall scores. |
| PartnershipMatching.MatchesSortedPermutation | app/dashboard/partnership-matching/page.tsx:278-293 | The listed matches are ordered by non-increasing score and are a permutation of the scored candidates. |
| PartnershipMatching.OverlapBounds | app/dashboard/partnership-matching/page.tsx:190-192 | The keyword overlap lies between 0 and the number of startup keywords. It is 0 exactly when no keyword is a need, and all of them exactly when every keyword is. |
| PartnershipMatching.NanoInnovateAeroSpaceOverlap | app/dashboard/partnership-matching/page.tsx:77-175 | NanoInnovate and AeroSpace Corp. share exactly one keyword. |
| PartnershipMatching.FindPartnerIff | app/dashboard/partnership-matching/page.tsx:402-403 | A partner is found exactly when some sample partner has the id, and the one found has it. |
| PartnershipMatching.ApplyFilterChangesOnlyItsKey | app/dashboard/partnership-matching/page.tsx:300-302 | A filter change sets its own key and leaves the others unchanged. |
| PartnershipMatching.PartnershipPage.constructor | app/dashboard/partnership-matching/page.tsx:235-250 | The page starts with TRL 3 to 7 and every other filter empty, the first sample partner selected, and empty chat, timeline and list. |
| PartnershipMatching.PartnershipPage.HandleFilterChange | app/dashboard/partnership-matching/page.tsx:300-302 | Only the filters change, by the update. |
| PartnershipMatching.PartnershipPage.SetSearchTerm | app/dashboard/partnership-matching/page.tsx:424 | Only the search term changes. |
| PartnershipMatching.PartnershipPage.SelectPartner | app/dashboard/partnership-matching/page.tsx:402-403 | The selected partner becomes the one with the id, or none. Nothing else changes. |
| PartnershipMatching.PartnershipPage.SetChatInput | app/dashboard/partnership-matching/page.tsx:664 | Only the chat input changes. |
| PartnershipMatching.PartnershipPage.RefreshMatches | app/dashboard/partnership-matching/page.tsx:252-298 | The listed matches become the filtered, mismatch-checked, scored and sorted startups. Nothing else changes. |
| PartnershipMatching.PartnershipPage.HandleSelectStartup | app/dashboard/partnership-matching/page.tsx:304-334 | Selecting a startup resets the chat to exactly two messages (system, then received) and the timeline to exactly three events. The filters, search term and list are untouched. |
| PartnershipMatching.PartnershipPage.HandleSendMessage | app/dashboard/partnership-matching/page.tsx:336-362 | Blank input, no startup or no partner changes nothing. Otherwise one sent message and one completed timeline event are appended, a reply is scheduled, and the input is cleared. The filters, search term and list are untouched. |
| PartnershipMatching.PartnershipPage.ReplyTimerElapsed | app/dashboard/partnership-matching/page.tsx:346-356 | The oldest pending reply appends one received message from that startup. Nothing else changes. |
| ComplianceReporting.FilteredIff | app/dashboard/compliance-reporting/page.tsx:99-104 | A report is shown exactly when it is in the list and every non-empty filter equals its field. |
| ComplianceReporting.FilteredKeepsOrder | app/dashboard/compliance-reporting/page.tsx:99-104 | The shown reports keep the list's order. |
| ComplianceReporting.NoFiltersShowAll | app/dashboard/compliance-reporting/page.tsx:93 | With every filter empty, every report is shown. |
| ComplianceReporting.NoneSelected | app/dashboard/compliance-reporting/page.tsx:99-104 | If no report meets the filters, the table is empty. |
| ComplianceReporting.AllOptionEmptiesTable | app/dashboard/compliance-reporting/page.tsx:154-185 | An "All …" option stores "all", which matches no report's agency, status or mineral, so the table empties. |
| ComplianceReporting.FlaggedShowsDualUse | app/dashboard/compliance-reporting/page.tsx:17-56 | Filtering on "Flagged" shows exactly the dual-use export assessment. |
| ComplianceReporting.StatusVariantIff | app/dashboard/compliance-reporting/page.tsx:216-223 | Approved, Submitted and Flagged each have their own badge variant, and every other status is outlined. |
| ComplianceReporting.RiskVariantIff | app/dashboard/compliance-reporting/page.tsx:285-290 | High risk is destructive, medium secondary, and anything else default. |
| ComplianceReporting.ImpactBandIff | app/dashboard/compliance-reporting/page.tsx:237-243 | Above 80 is green, 61 to 80 yellow, 60 and below red, so 80 is yellow and 60 red. |
| ComplianceReporting.ImpactBandMonotone | app/dashboard/compliance-reporting/page.tsx:237-243 | A higher score never gets a worse band. |
| ComplianceReporting.CompliancePage.constructor | app/dashboard/compliance-reporting/page.tsx:92-93 | The page starts on the reports tab with every filter empty. |
| ComplianceReporting.CompliancePage.HandleFilterChange | app/dashboard/compliance-reporting/page.tsx:95-97 | The named filter takes the value and the other two keep theirs. |
| ComplianceReporting.CompliancePage.Clear | app/dashboard/compliance-reporting/page.tsx:190 | Clearing empties every filter, so all four reports are shown. |
| ComplianceReporting.CompliancePage.SetActiveTab | app/dashboard/compliance-reporting/page.tsx:92 | Only the tab changes. |
| Diagram.DiagramState.constructor | components/diagram.tsx:4-8 | The diagram starts with nothing hovered, no active connection, no flow, no timer and the Template tab. |
| Diagram.DiagramState.SelectTab | components/diagram.tsx:260 | Only the tab changes. |
| Diagram.DiagramState.Tick | components/diagram.tsx:184-194 | The picked connection is appended and only the last two are kept. At most two connections stay active, all from the table, and the newest is the picked one. Nothing else changes. |
| Diagram.DiagramState.MouseEnter | components/diagram.tsx:196-205 | Entering cancels the pending leave timer and sets the hovered core. Every core but the hub starts its gathering flow, and the hub keeps the current flow. |
| Diagram.DiagramState.MouseLeave | components/diagram.tsx:207-213 | Leaving starts a leave timer and records it as the timeout. |
| Diagram.DiagramState.LeaveTimerFires | components/diagram.tsx:208-211 | A live leave timer clears the hover and the flow. |
| Diagram.DiagramState.PhaseTimerFires | components/diagram.tsx:215-222 | A gathering flow advances to processing for the same core. |
| Diagram.LastTwoWindow | components/diagram.tsx:186-189 | The window keeps at most two connections. The newest is last, the older one stays when there is room, and only the newest and the previous ones appear. |
| Diagram.FindTabIff | components/diagram.tsx:68 | A tab is found exactly when some tab has the id, and the one found has it. |
| Diagram.CentralCoreOfTab | components/diagram.tsx:67-69 | A known tab shows its own central core, and an unknown tab shows the first tab's, ORCHESTRAL. |
| Diagram.LithiumTabShowsLabal | components/diagram.tsx:29-36 | The Lithium tab shows LABAL. |
| Diagram.FindCoreIff | components/diagram.tsx:230-231 | A core is found exactly when some core has the id, and the one found has it. |
| Diagram.NodeHasPosition | components/diagram.tsx:229-231 | Every node has a position: the hub at (50, 50), and every other node at its core's position. |
| Diagram.EveryConnectionHasPath | components/diagram.tsx:152-182 | Every connection in the table gets a path. |
| Diagram.HighPriorityReversible | components/diagram.tsx:152-163 | Every high-priority connection has a high-priority reverse. |
| Diagram.ConnectionPairsDistinct | components/diagram.tsx:152-182 | No two connections join the same ordered pair of nodes. |
| Diagram.ConnectionAtIdentifies | components/diagram.tsx:152-182 | Each connection is identified by its ordered pair of nodes. |
| Diagram.AdvanceOnlyForward | components/diagram.tsx:215-222 | Advancing keeps the core and only moves gathering to processing. Advancing twice equals advancing once. |
| TrlScale.LevelsInOrderAndBanded | components/trl-scale.tsx:22-104 | There are nine levels, numbered 1 to 9 in order. Levels 1 to 3 are research, 4 to 7 the valley, and 8 and 9 commercial. |
| TrlScale.TrlScaleState.constructor | components/trl-scale.tsx:20 | Nothing is selected at first. |
| TrlScale.TrlScaleState.HandleLevelClick | components/trl-scale.tsx:106-107 | Clicking the selected level deselects it, and clicking any other level selects it. |
| TrlScale.ToggleIff | components/trl-scale.tsx:106-107 | The toggle empties the selection exactly when the clicked level was selected, and selects the clicked level otherwise. Toggling twice restores a selection of that level and otherwise leaves none. |
| TrlScale.AtMostOneShowsDetails | components/trl-scale.tsx:126-149 | At most one level shows its details. |
| TrlScale.ClickExpandsAtMostTheClicked | components/trl-scale.tsx:126-149 | After clicking a level, only that level can show details, and only if it was not already selected. |
| Nav.NavLabelShape | app/page.tsx:51-58 | A label has its id's length. Its first character is upper-cased, every hyphen becomes a space, and no hyphen remains. |
| Nav.HyphensToSpaces | app/page.tsx:58 | Replacing hyphens keeps every position and changes only the hyphens. |
| Nav.HrefIsRawId | app/page.tsx:55 | The link is "#" followed by the untransformed id. |
| Nav.PlainWord | app/page.tsx:58 | A one-word id is shown with its first letter capitalised (e.g. "platform" as "Platform"). |
| Nav.ThreeWords | app/page.tsx:58 | Three hyphen-joined words become three space-joined words. |
| Nav.HowWeHelpLabel | app/page.tsx:51-58 | "how-we-help" is shown as "How we help": only the first word is capitalised. |

## Left out

- Sending mail through Resend, the console logging, and the `catch` branch that answers "An unexpected error occurred" are not modelled. The modelled steps cannot throw. The send's result is a `delivery` parameter that the outcome ignores.
- The `RESEND_API_KEY` environment lookup becomes the `mailConfigured` parameter. The validation library's e-mail regular expression becomes the `isEmail` parameter.
- The validation library's own messages (missing key, invalid option, wrong literal) are abstract message values, not their exact wording.
- The validation library strips keys a schema does not declare, which `ValidatedDataExact` states. `ValidatedData` lists the entries in the schema's field order by definition. No lemma states that the library's output object iterates in that order.
- SubmitForm.TitleCaseOfCamelName: states the title of a general camelCase key, not the concrete "contactNameTitle" → "Contact Name Title" instance. The literal-string proof is too costly for the verifier.
- Nav: the six one-word section labels are covered by `PlainWord`, not by one lemma listing all seven labels. The combined literal proof is too costly. "how-we-help" is proved concretely.
- The partnership scores are floating-point (`calculateMatchScores`, `calculateSuccessProbability`) and are passed in as a `score` function. Only the keyword-overlap count is modelled.
- The sort's stability for equal scores is not stated. Descending order and permutation are.
- The recommended actions, the dates and times, and the simulated loading flags and 700 ms delay of the partnership page are left out.
- Random choices (the greeting, the widget's 1–2 s typing delay, the diagram's random connection) become parameters or event arguments. Timers become event methods.
- `Date.now()` message ids in the dashboard chat window become a `now` parameter.
- Case mapping is ASCII only; JavaScript's `toLowerCase` also maps non-ASCII letters.
- The widget's quick-action buttons, opening and minimising, scrolling, and all animation, colour, icon and description text are presentation and are not modelled.
- The audit log and the critical-minerals table of the compliance page are static data, except for the risk badge mapping, which is modelled.
- The JSX reply of the graphene partnership rule is modelled as an opaque rule reply, not its markup.
