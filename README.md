# ReclamaAI complaint pipeline, modelled in Dafny

ReclamaAI runs every customer complaint through a fixed, single-threaded
pipeline of agents:

1. the **collector** turns loaded complaints into workflow states at NEW and
   gives each complaint without an id a fresh one;
2. the **privacy agent** masks card numbers, CPFs, e-mail addresses and phone
   numbers (in that order) in a copy of the complaint;
3. the **analyst** asks an LLM for a category, a sentiment and an urgency,
   parses the reply leniently, and raises the urgency when the raw text holds
   urgency keywords;
4. the **router** picks a team from a category map, with fallbacks, and
   derives a priority, an SLA and a justification;
5. the **communicator** files a Jira ticket, notifies the team and the
   customer, and completes the workflow.

Every agent but the collector and the privacy agent runs inside the same
envelope (`StatefulAgent.execute`). The envelope initialises the agent once
and validates the state before it processes. A failure adds exactly one
`[name] …` entry and sets the agent's failure status; the envelope never
raises. The **orchestrator** runs the four stages in order and stops after a
failed analysis or routing. It saves the state after every step on a
best-effort basis and keeps running counters, for one complaint or a batch.
A LangGraph **graph variant** runs the same stages as four nodes over a JSON
dict. The Jira and e-mail **simulators** keep a shared ticket table with a
monotone counter and a shared outbox.

One Dafny module per source file: `Schemas`, `Base`, `Collector`, `Privacy`
(with the regex matcher `PiiMatch` and the lemmas of `PrivacyProps`),
`Analyst` (and `AnalystProps`), `Prompts`, `AzureOpenAI`, `Router`,
`Communicator`, `MockJira`, `MockEmail`, `Orchestrator` and `ComplaintGraph`.
There are three helper modules:

- `Wrappers`: `Option` and `Result`;
- `Text`: Python's `lower`, `strip`, `find`, `rfind`, `join` and `str(int)`
  on character sequences;
- `OrderedDict`: insertion-ordered dicts and histograms;

plus `JsonValue`, a decoded JSON value with Python's truthiness and `dict.get`.

Objects the source updates in place are classes with `modifies` clauses:

- `ComplaintState`;
- the agents, and the envelope they share;
- the ticket table and the outbox;
- the orchestrator, its counters and its store.

Each class's methods are proved against functions of the old state.
Values, lookups and text processing are functions with lemmas.

Collaborators that the core cannot see are parameters. These are the LLM
completion, `json.loads`, the team loader, the search index, the document
store, `uuid4` and the clock. Each parameter says either what the
collaborator returns or the text of the exception it raises.

## Where the model follows the code rather than the documented design

- `WorkflowStatus` has thirteen members, including QA_APPROVED and
  QA_REJECTED, not eleven.
- No stage skips work because its output is already present. The analyst
  re-runs on a state that already holds an analysis.
- The orchestrator runs the analysis right after anonymisation without
  checking for a failure. The privacy agent never fails.
- Through the envelope, a communicator e-mail failure always ends in
  FAILED_JIRA. `process` picks FAILED_EMAIL, but the envelope overwrites it
  with the communicator's failure status
  (`Communicator.EmailFailureEndsInJiraFailure`).
- Orchestrator `initialize` calls each agent's `initialize`, and only the
  privacy agent marks itself initialised there. The envelope therefore
  initialises the analyst, the router and the communicator a second time on
  their first run. The model keeps both calls.
- A blank or whitespace-only category from the LLM parses as "Atraso na
  entrega", because the empty string is contained in the first table key
  (`Analyst.BlankCategoryIsDelay`).
- The graph's nodes drop the agents' own error entries
  (`ComplaintGraph.NodeKeepsErrors`). A failed anonymisation sets
  FAILED_ANONYMIZATION, which is no `WorkflowStatus` value
  (`ComplaintGraph.AnonymizationFailureOutsideEnum`).
- The graph's communicate node fails whenever the communicator filed a
  ticket, because its log line reads a field that tickets do not have (see
  "Findings"). It records the ticket and stamps `completed_at` only when
  no ticket was filed, whatever status the communicator ended in.

## Model

| member | source | states |
|---|---|---|
| Schemas.ParseSource | src/models/schemas.py:13-20 | a source value parses to the member that has it, and parsing fails exactly on strings that no member has |
| Schemas.StatusValuesDistinct | src/models/schemas.py:60-74 | distinct statuses have distinct values, and the failures are exactly the statuses whose value starts with FAILED |
| Schemas.ComplaintState.constructor | src/models/schemas.py:145-158 | a new state holds the raw complaint, status NEW, no errors and none of the later records |
| Schemas.ComplaintState.SetStatus | src/models/schemas.py:145-158 | assigning the status changes nothing else and extends the trail of statuses by the new one |
| Schemas.DisplayId | src/services/orchestrator.py:148 | `id or external_id`: a non-empty id of the complaint when it has one, otherwise its external id |
| Base.ErrorText | src/agents/base.py:20-27 | the exception's text is the agent's name in brackets, a space, then the message |
| Base.ErrorTextInjective | src/agents/base.py:20-27 | when the agent's name has no `]`, the text determines both the name and the message |
| Base.Reraised | src/agents/base.py:119-123 | an `AgentError` is raised again unchanged; any other exception becomes a recoverable `AgentError` of this agent with the same text |
| Base.BaseExecute | src/agents/base.py:86-123 | the run succeeds exactly when initialisation (when needed), validation and processing all succeed, and then returns what processing returned; otherwise the first failing step decides the error, and invalid input is a non-recoverable error |
| Base.EnvelopeEntry | src/agents/base.py:175-215 | the envelope appends no entry exactly when the run succeeds; a state that fails validation gets the "Invalid input state" entry |
| Base.ErrorEntryTagged | src/agents/base.py:204-215 | every entry for a raised error starts with the agent's tag `[name] ` |
| Base.EntryTagged | src/agents/base.py:175-215 | every entry the envelope appends starts with the agent's tag |
| Base.AppendEntry | src/agents/base.py:186-215 | the errors grow by exactly the one entry, or not at all on success |
| Base.StatefulAgent.constructor | src/agents/base.py:152-163 | the agent has the given name and statuses and is not initialised |
| Base.StatefulAgent.Fail | src/agents/base.py:186-190 | a failure appends exactly one entry and sets the failure status; nothing else changes |
| Base.StatefulAgent.Succeed | src/agents/base.py:192-199 | a success sets the success status and changes nothing else |
| Base.StatefulAgent.Enter | src/agents/base.py:175-190 | the agent is initialised afterwards unless its first initialisation raised; processing goes ahead exactly when it is initialised and the state is valid, and then the state is untouched; otherwise one entry and the failure status are recorded |
| Base.StatefulAgent.Exit | src/agents/base.py:192-215 | when processing raised, one entry and the failure status; otherwise the success status alone |
| Collector.WithId | src/agents/collector.py:86-87 | afterwards the complaint has a non-empty id: its own when it had one, otherwise the fresh one |
| Collector.WithIdKeepsTheRest | src/agents/collector.py:86-87 | assigning the id changes no other field of the complaint |
| Collector.WithIdIdempotent | src/agents/collector.py:111-112 | a complaint that already has an id keeps it, so a second assignment changes nothing |
| Collector.CollectedHaveIds | src/agents/collector.py:83-97 | every collected state is at NEW with no errors and holds a complaint with a non-empty id, the loaded complaint itself when it had an id |
| Collector.AllSourcesComplete | src/agents/collector.py:56 | `set(ComplaintSource)` holds every source |
| Collector.ValidateInput | src/agents/collector.py:42-61 | every list of sources is accepted, and no list means every source |
| Collector.CollectorAgent.constructor | src/agents/collector.py:32-35 | a new collector has no data loader and is not initialised |
| Collector.CollectorAgent.Initialize | src/agents/collector.py:37-40 | afterwards the loader is held |
| Collector.CollectorAgent.CollectSingle | src/agents/collector.py:99-123 | a new state at NEW, started at the clock's reading, holding the complaint with its id assigned |
| Collector.CollectorAgent.BuildStates | src/agents/collector.py:83-97 | one new, distinct state per loaded complaint, in load order, each at NEW with the complaint's id assigned |
| Collector.CollectorAgent.Process | src/agents/collector.py:63-97 | raises "Data loader not initialized" exactly when there is no loader; otherwise returns the states of the loaded complaints |
| Collector.CollectorAgent.CollectBySource | src/agents/collector.py:125-135 | `process` for the one source: the same error, and otherwise the same states |
| Collector.CollectorAgent.Execute | src/agents/collector.py:37-97 | inside the base agent's `execute`, the collection always succeeds and leaves the collector initialised with its loader |
| Collector.CollectorAgent.GetStats | src/agents/collector.py:137-146 | the loader's statistics, or the error text exactly when there is no loader |
| PiiMatch.Run | src/agents/privacy.py:20-35 | the longest run of characters of one class at the head of the text: all of them in the class, and the next character (if any) not |
| PiiMatch.Match | src/agents/privacy.py:20-35 | the greedy, backtracking match of a pattern at the head of the text is at least the pattern's shortest length and never beyond the text |
| PiiMatch.Subn | src/agents/privacy.py:90-91 | `pattern.subn`: no replacement leaves the text as it was, and there are never more replacements than characters |
| PiiMatch.MatchInUnion | src/agents/privacy.py:20-35 | every matched character belongs to one of the pattern's classes |
| PiiMatch.MatchHasMandatory | src/agents/privacy.py:20-35 | a match holds a character of every class the pattern requires at least once |
| PiiMatch.BlockedNoMatch | src/agents/privacy.py:20-35 | a character outside all classes, closer than the shortest match, rules out a match |
| PiiMatch.FencedNoMatch | src/agents/privacy.py:20-35 | no match starts in a stretch that is fenced off and lacks a class the pattern requires |
| PiiMatch.SubnInert | src/agents/privacy.py:90-91 | a prefix where no match starts is copied unchanged and adds no replacement |
| PiiMatch.SubnAtMatch | src/agents/privacy.py:90-91 | a match at the head becomes the marker and counts one replacement |
| PiiMatch.SubnKeepsHead | src/agents/privacy.py:90-91 | a first character outside every class survives at the head of the result |
| Privacy.CardLength | src/agents/privacy.py:19-22 | the card pattern needs at least 16 characters |
| Privacy.CpfLength | src/agents/privacy.py:24-27 | the CPF pattern needs at least 11 characters |
| Privacy.EmailLength | src/agents/privacy.py:29-32 | the e-mail pattern needs at least 5 characters |
| Privacy.PhoneLength | src/agents/privacy.py:34-37 | the phone pattern needs at least 10 characters |
| Privacy.RulesWellFormed | src/agents/privacy.py:17-38 | no pattern matches the empty string |
| Privacy.ApplyRules | src/agents/privacy.py:90-97 | when no pass replaces anything, the text comes back unchanged |
| Privacy.MaskText | src/agents/privacy.py:73-97 | empty text comes back as it is with no replacement; with no replacement the text is unchanged |
| Privacy.MaskTextPasses | src/agents/privacy.py:83-97 | the passes run card, CPF, e-mail, phone, each on the previous output, and the count is the sum of the four counts |
| Privacy.Anonymize | src/agents/privacy.py:99-133 | description, title and contact are masked (an absent contact stays absent) and every other field is kept |
| Privacy.PrivacyAgent.constructor | src/agents/privacy.py:52-58 | a new agent is not initialised |
| Privacy.PrivacyAgent.Initialize | src/agents/privacy.py:60-63 | afterwards the agent is initialised |
| Privacy.PrivacyAgent.MaskPii | src/agents/privacy.py:73-97 | the loop over the passes returns the masked text and the total count of `MaskText` |
| Privacy.PrivacyAgent.Process | src/agents/privacy.py:99-133 | returns the anonymised copy; the input is a value and is not changed |
| Privacy.PrivacyAgent.ProcessState | src/agents/privacy.py:135-152 | the state gains the anonymised copy and status ANONYMIZED; the raw complaint and everything else is kept |
| PrivacyProps.BoundaryOutsideAll | src/agents/privacy.py:17-38 | punctuation such as `,` `!` `:` and the brackets belong to no class of any pattern |
| PrivacyProps.CardMatch | src/agents/privacy.py:19-22 | four groups of four digits, optionally separated by one space or dash, are matched whole by the card pattern |
| PrivacyProps.CpfMatch | src/agents/privacy.py:24-27 | a CPF number, with or without its dots and dash, is matched whole by the CPF pattern |
| PrivacyProps.EmailMatch | src/agents/privacy.py:29-32 | an address local@domain.tail is matched whole when the text after it does not continue the tail |
| PrivacyProps.PhoneMatch | src/agents/privacy.py:34-37 | a phone number in any of the accepted layouts is matched whole by the phone pattern |
| PrivacyProps.MarkerInert | src/agents/privacy.py:73-97 | a bracketed marker, after text without digits or `@`, is never masked again |
| PrivacyProps.MarkersInert | src/agents/privacy.py:17-38 | each of the four markers the agent writes is left alone by a later masking, so masking is idempotent on them |
| PrivacyProps.PlainUnchanged | src/agents/privacy.py:73-97 | text without digits or `@` comes back unchanged with no replacement |
| PrivacyProps.CardIsMasked | src/agents/privacy.py:19-22 | a card number becomes the card marker, counted once |
| PrivacyProps.CardPassOnCpf | src/agents/privacy.py:19-27 | the card pass, which runs first, leaves a CPF number alone |
| PrivacyProps.CpfIsMasked | src/agents/privacy.py:24-27 | a CPF number followed by a boundary becomes the CPF marker, counted once |
| PrivacyProps.EmailIsMasked | src/agents/privacy.py:29-32 | an e-mail address without digits, followed by a boundary, becomes the e-mail marker, counted once |
| PrivacyProps.PhoneNotCpf | src/agents/privacy.py:24-37 | no CPF match starts inside a phone number separated by a space |
| PrivacyProps.PhoneIsMasked | src/agents/privacy.py:34-37 | a phone number with a space separator, followed by a boundary, becomes the phone marker, counted once |
| PrivacyProps.ElevenDigitsFitPhone | src/agents/privacy.py:34-37 | eleven bare digits are a phone match too |
| PrivacyProps.ElevenDigitsAreCpf | src/agents/privacy.py:15-38 | yet eleven bare digits become the CPF marker, because the CPF pass runs before the phone pass |
| Analyst.Lookup | src/agents/analyst.py:254-255 | `mappings[key]`: absent exactly when no entry has the key, otherwise the value of an entry with that key |
| Analyst.FirstRelated | src/agents/analyst.py:258-260 | the first entry, in table order, whose key contains the text or is contained in it; none exactly when no key is related |
| Analyst.ParseCategory | src/agents/analyst.py:215-264 | the exact key of the lower-cased, stripped text, else the first related key, else "Atendimento ruim" |
| Analyst.NoEmptyCategoryKey | src/agents/analyst.py:226-249 | no key of the category table is empty, so the empty text has no exact entry |
| Analyst.BlankNormalizesEmpty | src/agents/analyst.py:251 | text made only of whitespace normalises to the empty text |
| Analyst.EmptyRelatesFirst | src/agents/analyst.py:257-260 | the empty text is contained in the first key of the table |
| Analyst.BlankCategoryIsDelay | src/agents/analyst.py:251-260 | a blank category parses as "Atraso na entrega", not the fallback, because the empty text is contained in the first key |
| Analyst.NormalizeIgnoresCase | src/agents/analyst.py:251 | lower-casing first does not change the normalised text |
| Analyst.ParseSentiment | src/agents/analyst.py:266-276 | the table entry of the normalised text, else insatisfeito |
| Analyst.ParseUrgency | src/agents/analyst.py:278-290 | the table entry of the normalised text, else media |
| Analyst.UrgencyOrder | src/agents/analyst.py:303-304 | the order is at most 3, and 0 for any text that is not media, alta or critica |
| Analyst.OrderIsRank | src/agents/analyst.py:292-304 | on urgency values the order is baixa < media < alta < critica, and "is higher" is exactly a higher rank |
| Analyst.UrgencyFromValue | src/agents/analyst.py:142 | `Urgency(value)`: the urgency with that value, defined for every text of positive order |
| Analyst.Ratchet | src/agents/analyst.py:136-142 | with no keyword urgency the parsed urgency stands |
| Analyst.RatchetIsMax | src/agents/analyst.py:136-142 | the final urgency is the higher of the parsed urgency and the keyword urgency, so keywords never lower it |
| Analyst.Strings | src/agents/analyst.py:186-198 | the strings of a JSON list, defined exactly when every item is a string, item for item |
| Analyst.KeyIssues | src/agents/analyst.py:186-198 | a single string becomes a one-item list; a list keeps its first four items, which must be strings; anything else fails |
| Analyst.DecodeAnalysis | src/agents/analyst.py:174-200 | a reply that is not an object fails; a decoded analysis has the complaint's id, the clock's time and at most four key issues |
| Analyst.ParseLlmResponse | src/agents/analyst.py:161-213 | the decoded analysis, or the default analysis exactly when decoding fails; always the complaint's id and at most four key issues |
| Analyst.FullReply | src/agents/analyst.py:174-200 | a reply with every field present and well typed is taken field by field, the key issues cut to four |
| Analyst.UserPromptIsAnalysisPrompt | src/agents/analyst.py:93-104 | the prompt is built from the anonymised copy when there is one, else the raw complaint, with the raw source and creation time |
| Analyst.Outcome | src/agents/analyst.py:87-159 | no client raises "LLM client not initialized" (not recoverable); an LLM error raises "LLM analysis failed: …" (recoverable); otherwise the parsed analysis with the keyword ratchet applied |
| Analyst.AnalystAgent.constructor | src/agents/analyst.py:38-46 | a new analyst with its name and statuses, not initialised, with no client |
| Analyst.AnalystAgent.Initialize | src/agents/analyst.py:48-51 | the client is held afterwards unless creating it raised, and then that error is returned |
| Analyst.AnalystAgent.Process | src/agents/analyst.py:78-159 | on success only the analysis is stored; on an error the state is untouched and the error is returned |
| Analyst.AnalystAgent.Execute | src/agents/base.py:175-215 | the base agent's `execute` around the analyst: the state afterwards is the processed state concluded with the envelope's entry and ANALYZED or FAILED_LLM |
| AnalystProps.LookupAt | src/agents/analyst.py:254-255 | the lookup finds the first entry that holds the key |
| AnalystProps.SentimentEntry | src/agents/analyst.py:268-273 | every sentiment's value is a key of the sentiment table mapping to that sentiment |
| AnalystProps.SentimentRoundTrip | src/agents/analyst.py:266-276 | every sentiment's value parses back to that sentiment |
| AnalystProps.UrgencyEntry | src/agents/analyst.py:280-287 | every urgency's value is a key of the urgency table mapping to that urgency |
| AnalystProps.UrgencyRoundTrip | src/agents/analyst.py:278-290 | every urgency's value parses back to that urgency |
| AzureOpenAI.DropOpeningFence | src/integrations/azure_openai.py:158-161 | an opening "```json" fence loses 7 characters, else an opening "```" fence loses 3, else nothing changes |
| AzureOpenAI.DropClosingFence | src/integrations/azure_openai.py:163-164 | a closing "```" fence loses its 3 characters, else nothing changes |
| AzureOpenAI.Cleaned | src/integrations/azure_openai.py:155-166 | the cleaned reply neither starts nor ends with whitespace |
| AzureOpenAI.Candidate | src/integrations/azure_openai.py:168-177 | when a '}' follows the first '{', the text from the first '{' to the last '}', with no '{' before it and no '}' after it; otherwise the whole text |
| AzureOpenAI.JsonCandidate | src/integrations/azure_openai.py:141-177 | the text handed to `json.loads` is the span taken from the cleaned reply |
| AzureOpenAI.CleanedFramed | src/integrations/azure_openai.py:155-166 | stripping and dropping fences keep an object text whole and add no brace around it |
| AzureOpenAI.CandidateIsObject | src/integrations/azure_openai.py:168-173 | in text with no '{' before and no '}' after an object text, the span is exactly that object |
| AzureOpenAI.CandidateOfFramed | src/integrations/azure_openai.py:141-177 | whatever prose or fences surround an object text, provided they hold no '{' before it and no '}' after it, the object text is what gets parsed |
| AzureOpenAI.CandidateOfFence | src/integrations/azure_openai.py:141-177 | an object inside a "```json" fence is parsed on its own |
| AzureOpenAI.ParseJsonResponse | src/integrations/azure_openai.py:141-177 | `json.loads` of the candidate text |
| AzureOpenAI.Analyze | src/integrations/azure_openai.py:63-139 | a failed call becomes "LLM call failed: …", a reply that does not parse becomes "Invalid JSON response from LLM: …", otherwise the parsed reply; every failure names its step |
| AzureOpenAI.BatchItem | src/integrations/azure_openai.py:197-207 | a parsed reply is kept, a failure becomes `{"error": <message>}` |
| AzureOpenAI.AnalyzeBatch | src/integrations/azure_openai.py:179-208 | one result per prompt, in order, each the item of that prompt's analysis; a failure does not stop the batch |
| Prompts.Fill | src/utils/prompts.py:42-59 | the filled template starts with its head and the title, and ends with the date and its tail |
| Prompts.AnalysisPrompt | src/utils/prompts.py:81-104 | the classification prompt starts with its fixed head and the title and ends with the date and the fixed tail; source and date default to "não informado" |
| Prompts.FillInjective | src/utils/prompts.py:42-59 | a template with the classification template's line structure determines the four values it was filled with, when title, source and date are single lines |
| Prompts.TemplateLines | src/utils/prompts.py:42-59 | the fixed text between the values has the line breaks that make filling reversible |
| Prompts.AnalysisPromptInjective | src/utils/prompts.py:81-104 | the prompt determines title, description, source and date, when title, source and date are single lines |
| Prompts.AnyOccurs | src/utils/prompts.py:123-129 | true exactly when some keyword of the list occurs in the text |
| Prompts.CheckUrgencyKeywords | src/utils/prompts.py:112-133 | "critica" exactly when a critical keyword occurs in the lowercased text; "alta" exactly when none does and a high keyword does; nothing exactly when no keyword occurs |
| Prompts.CheckUrgencyIgnoresCase | src/utils/prompts.py:112-133 | lower-casing the text first does not change the answer |
| Prompts.RoutingContext | src/utils/prompts.py:134-151 | the query starts with "Categoria: …. Urgência: …. " and ends with the summary |
| Router.PutTeam | src/agents/router.py:58-59 | after one team's categories are added, each lowercased category maps to that team, every other key keeps its team, and no key is added when all were present |
| Router.BuildOnto | src/agents/router.py:57-59 | the map built over the team list stays a well-formed ordered dict |
| Router.LastOwner | src/agents/router.py:57-59 | the last team listing a category, none exactly when no team lists it |
| Router.BuildValues | src/agents/router.py:50-59 | a key is in the built map exactly when it was there or some team lists it, and then it maps to the last team that lists it |
| Router.BuildKeysKept | src/agents/router.py:57-59 | when every listed category is already a key, building keeps the key order |
| Router.BuildIdempotent | src/agents/router.py:50-59 | initialising twice from the same team list gives the same map as once |
| Router.LaterTeamWins | src/agents/router.py:57-59 | of two teams listing the same category, the later one is kept |
| Router.BuiltValuesAreTeams | src/agents/router.py:57-59 | every team the built map hands out is one of the loaded teams |
| Router.FirstRelatedKey | src/agents/router.py:179-181 | the first key, in insertion order, that contains the category or is contained in it |
| Router.FirstFallback | src/agents/router.py:184-189 | the first team whose lowercased name mentions "atendimento" or "n2" |
| Router.MappedTeam | src/agents/router.py:162-191 | no team exactly when the category is no key, no key is related to it and there are no teams; a team found is a mapped value or a loaded team |
| Router.MappedTeamKnown | src/agents/router.py:162-191 | on the map built from the teams, mapping finds no team exactly when there are no teams, and every team it finds is one of them |
| Router.MappedExact | src/agents/router.py:172-176 | a category some team lists goes to the last team that lists it |
| Router.SearchQuery | src/agents/router.py:205-210 | the query is the routing context of the analysis's category, urgency and summary |
| Router.DeterminePriority | src/agents/router.py:231-259 | the priority's level is never below the urgency's and at most one above it |
| Router.ResolvedTeam | src/agents/router.py:193-229 | the resolved team is the mapped one unless search mode is on and the search returned hits, in which case it is the first hit; a team the mapping finds is never lost |
| Router.PriorityIsRaisedRank | src/agents/router.py:231-259 | the priority's level is the urgency's level, one higher for a very dissatisfied customer, capped at critical |
| Router.SlaHours | src/agents/router.py:261-281 | the team's SLA for the urgency (an unknown urgency counts as media), 48 when the team has none |
| Router.Cited | src/agents/router.py:300 | the first three responsibilities, or all when there are fewer |
| Router.Justification | src/agents/router.py:283-301 | starts with the category and ends with the cited responsibilities joined by ", " and a full stop |
| Router.JustificationIgnoresRest | src/agents/router.py:296-301 | responsibilities after the third never reach the justification |
| Router.Decision | src/agents/router.py:119-146 | no team raises "No team found for category …" (not recoverable); otherwise the decision carries the team's name, id and e-mail, the complaint's id, the priority, the SLA, the justification and the clock's time |
| Router.RouterAgent.constructor | src/agents/router.py:33-48 | a new router with its name and statuses, the search flag as given, no teams, an empty map and no search client |
| Router.RouterAgent.Initialize | src/agents/router.py:50-76 | a loader failure is raised and changes nothing; otherwise the teams are held, the map is built onto the old one, and a failing search client turns search mode off |
| Router.RouterAgent.AddTeams | src/agents/router.py:57-59 | the nested loops build exactly `BuildOnto` |
| Router.RouterAgent.AddTeam | src/agents/router.py:58-59 | the inner loop adds exactly `PutTeam` |
| Router.RouterAgent.RouteWithMapping | src/agents/router.py:162-191 | exact key, else first related key, else first fallback team, else the first team, else none |
| Router.RouterAgent.RouteWithRag | src/agents/router.py:193-229 | the first search hit; an empty or failed search falls back to the mapping |
| Router.RouterAgent.Process | src/agents/router.py:99-160 | on success only the routing decision is stored; on an error the state is untouched and the error is returned |
| Router.RouterAgent.Execute | src/agents/base.py:175-215 | the base agent's `execute` around the router: initialisation when needed, the "Invalid input state" entry without an analysis, otherwise the decision concluded with ROUTED or FAILED_ROUTING |
| Router.RouterAgent.AvailableTeams | src/agents/router.py:303-305 | the team names, in order |
| Router.RouterAgent.GetTeamById | src/agents/router.py:307-312 | the first team with that id, none exactly when no team has it |
| Communicator.FailureStatus | src/agents/communicator.py:127-131 | FAILED_JIRA exactly when the lowercased error text mentions "ticket" or "jira", otherwise FAILED_EMAIL |
| Communicator.JiraMissingIsJiraFailure | src/agents/communicator.py:148-149 | a missing Jira client is classified as a Jira failure |
| Communicator.NeitherTicketNorJira | src/agents/communicator.py:128 | a text without the letters J and K, in either case, is classified as an e-mail failure |
| Communicator.EmailMissingIsEmailFailure | src/agents/communicator.py:172-173 | a missing e-mail client is classified as an e-mail failure |
| Communicator.CommunicationError | src/agents/communicator.py:133 | the raised error is recoverable, names the communicator and reads "Communication failed: " followed by the cause's text |
| Communicator.Failure | src/agents/communicator.py:90-133 | `process` raises nothing exactly when a ticket was filed and an e-mail client exists |
| Communicator.EmailFailureEndsInJiraFailure | src/agents/base.py:186-190 | through the envelope an e-mail failure still ends at FAILED_JIRA, after passing TICKET_CREATED and FAILED_EMAIL, with the ticket kept |
| Communicator.Communicated | src/agents/communicator.py:85-133 | the workflow is COMPLETED exactly when a ticket was filed and an e-mail client exists, otherwise no notification or completion time is recorded; the complaint, routing and errors are kept, and the trail grows, ending in the new status |
| Communicator.SuccessTrail | src/agents/communicator.py:90-124 | on success the state passes TICKET_CREATED, NOTIFIED and COMPLETED, keeps the ticket and the team notification for that ticket, is completed at the clock's time, and gains no error |
| Communicator.CommunicatorAgent.constructor | src/agents/communicator.py:34-42 | a new communicator with its name and statuses, no clients, not initialised |
| Communicator.CommunicatorAgent.Initialize | src/agents/communicator.py:44-48 | afterwards both clients are held |
| Communicator.CommunicatorAgent.CreateTicket | src/agents/communicator.py:135-157 | without a Jira client, "Jira client not initialized"; otherwise the next ticket is filed and returned |
| Communicator.CommunicatorAgent.NotifyTeam | src/agents/communicator.py:159-182 | without an e-mail client, "Email client not initialized"; otherwise the team e-mail is sent and its notification returned |
| Communicator.CommunicatorAgent.NotifyCustomer | src/agents/communicator.py:184-209 | a receipt exactly when there is an e-mail client and a non-empty contact, and then exactly that e-mail is sent |
| Communicator.CommunicatorAgent.RecordFailure | src/agents/communicator.py:126-133 | the status the error text selects, and the communication error raised |
| Communicator.CommunicatorAgent.RecordTicket | src/agents/communicator.py:93-96 | the ticket recorded at status TICKET_CREATED, nothing else changed |
| Communicator.CommunicatorAgent.RecordCompletion | src/agents/communicator.py:109-116 | the team notification recorded, through NOTIFIED to COMPLETED, completed at the clock's time |
| Communicator.CommunicatorAgent.NotifyAndComplete | src/agents/communicator.py:103-116 | the ticket table is untouched; without an e-mail client FAILED_EMAIL is recorded; otherwise the workflow completes and the team e-mail, then the customer e-mail when there is a contact, are sent |
| Communicator.CommunicatorAgent.Process | src/agents/communicator.py:75-133 | the state afterwards and the error raised follow from the ticket filed and the e-mail client; exactly one ticket is filed when there is a Jira client; the e-mails sent are the team's, then the customer's |
| Communicator.CommunicatorAgent.ProcessAndConclude | src/agents/base.py:192-199 | with both clients, `process` and the envelope's record complete the workflow |
| Communicator.CommunicatorAgent.Run | src/agents/base.py:175-215 | a state without routing or analysis gets the "Invalid input state" entry and FAILED_JIRA; a valid one is completed |
| Communicator.CommunicatorAgent.Execute | src/agents/base.py:175-215 | the base agent's `execute` around the communicator: the clients are taken on first use, and a valid state always completes |
| Communicator.CommunicatorAgent.GetStats | src/agents/communicator.py:211-229 | the ticket and e-mail statistics of the clients held, none for a missing client; each histogram sums to its total |
| MockJira.NumeralAfterDash | src/integrations/mock_jira.py:136-143 | the digits after the last dash of a key are its counter's numeral |
| MockJira.KeysDistinct | src/integrations/mock_jira.py:136-143 | different counter values give different keys, whatever the project keys |
| MockJira.FirstKeyAfterClear | src/integrations/mock_jira.py:218-222 | after the reset to 1000 the next key ends in -1001 |
| MockJira.FreshKey | src/integrations/mock_jira.py:52-66 | a key made from a counter above every filed ticket's number is not in use |
| MockJira.NewTicket | src/integrations/mock_jira.py:49-63 | the ticket's id is the counter's numeral, its key the project key, a dash and that id, its link the browse URL of the key, and it is open and about the given complaint |
| MockJira.NewTicketWellKeyed | src/integrations/mock_jira.py:52-63 | the created ticket's key is `{project}-{id}` and its id is the counter's numeral |
| MockJira.PriorityToJiraInjective | src/integrations/mock_jira.py:118-134 | low, medium, high and critical map to distinct Jira names (Low, Medium, High, Highest) |
| MockJira.WithStatus | src/integrations/mock_jira.py:203-216 | exactly the tickets with that status, in order |
| MockJira.Statuses | src/integrations/mock_jira.py:231-234 | the statuses of the tickets, one per ticket, in order |
| MockJira.TicketTable.constructor | src/integrations/mock_jira.py:23-24 | the shared table starts empty with the counter at 1000 |
| MockJira.TicketTable.AllTickets | src/integrations/mock_jira.py:194-201 | the filed tickets, one per key, in filing order |
| MockJira.MockJiraClient.constructor | src/integrations/mock_jira.py:26-33 | the client has the given project key and uses the shared table |
| MockJira.MockJiraClient.CreateTicket | src/integrations/mock_jira.py:35-73 | the counter goes up by exactly one; a fresh open ticket with key `{project}-{counter}`, id the counter and its browse link is filed under a key that was not in use; the table stays well keyed |
| MockJira.MockJiraClient.GetTicket | src/integrations/mock_jira.py:75-85 | the ticket filed under the key, none exactly when the key is absent |
| MockJira.MockJiraClient.UpdateTicketStatus | src/integrations/mock_jira.py:87-116 | true exactly when the key is filed; then only that ticket's status changes, otherwise nothing does; the counter is kept |
| MockJira.MockJiraClient.ClearTickets | src/integrations/mock_jira.py:218-222 | the table is empty and the counter back at 1000 |
| MockJira.MockJiraClient.TicketsByStatus | src/integrations/mock_jira.py:203-216 | exactly the filed tickets with that status |
| MockJira.MockJiraClient.GetStats | src/integrations/mock_jira.py:224-239 | the total is the number of tickets, the histogram counts each status in order of first appearance, and the counts add up to the total |
| MockEmail.Excerpt | src/integrations/mock_email.py:197 | the description itself when it has at most 500 characters, otherwise its first 500 followed by "..." |
| MockEmail.OrNotInformed | src/integrations/mock_email.py:189 | the value when present and non-empty, otherwise "N/I"; never empty |
| MockEmail.Subject | src/integrations/mock_email.py:133-150 | the subject ends with the fixed subject text followed by the ticket key |
| MockEmail.SubjectShape | src/integrations/mock_email.py:133-150 | the subject ends with "Nova reclamação atribuída - " and the ticket key, and starts with "[URGENTE] " for critical, "[ALTA PRIORIDADE] " for high, and nothing otherwise |
| MockEmail.SubjectNamesTicket | src/integrations/mock_email.py:133-150 | for one routing, the subject determines the ticket key |
| MockEmail.TeamEmail | src/integrations/mock_email.py:56-67 | the team notice goes to the responsible address with the built subject, at priority "high" exactly for high and critical routing |
| MockEmail.TeamEmailPriority | src/integrations/mock_email.py:62-67 | the team notice is sent at priority "high" exactly for high and critical routing, otherwise "normal" |
| MockEmail.CustomerEmail | src/integrations/mock_email.py:109-116 | the receipt goes to the customer's contact, at normal priority, with the protocol subject naming the ticket key |
| MockEmail.AddressedTo | src/integrations/mock_email.py:274-284 | exactly the sent messages with that recipient |
| MockEmail.Priorities | src/integrations/mock_email.py:298-301 | the priorities of the messages, one per message, in order |
| MockEmail.Recipients | src/integrations/mock_email.py:303 | exactly the addresses some sent message went to |
| MockEmail.Outbox.constructor | src/integrations/mock_email.py:38 | the shared outbox starts empty |
| MockEmail.MockEmailClient.constructor | src/integrations/mock_email.py:35-38 | the client uses the shared outbox |
| MockEmail.MockEmailClient.SendTeamNotification | src/integrations/mock_email.py:40-85 | exactly one message, the team notice to the responsible address, is appended; the notification carries that address, the ticket id, the subject and status sent |
| MockEmail.MockEmailClient.SendCustomerNotification | src/integrations/mock_email.py:87-131 | without a contact nothing is sent and nothing returned; otherwise exactly the receipt is appended and its notification returned |
| MockEmail.MockEmailClient.GetSentEmails | src/integrations/mock_email.py:265-272 | the outbox in sending order, as a value the caller cannot change |
| MockEmail.MockEmailClient.GetEmailsTo | src/integrations/mock_email.py:274-284 | exactly the sent messages with that recipient |
| MockEmail.MockEmailClient.ClearSentEmails | src/integrations/mock_email.py:286-289 | the outbox is empty afterwards |
| MockEmail.MockEmailClient.GetStats | src/integrations/mock_email.py:291-309 | the total is the outbox length, the recipients are counted once each, and the per-priority counts add up to the total |
| Orchestrator.StepEvents | src/services/orchestrator.py:150-157 | one audit event per step taken, in step order, each of type `step_<name>` |
| Orchestrator.RecordStepsSnoc | src/services/orchestrator.py:174-200 | saving after one more step applies that step's save on top of the saves before it |
| Orchestrator.RecordStepsAllSaved | src/services/orchestrator.py:136-160 | when every save goes through, the store gains every state after a step, in order, and one `step_<name>` event per step |
| Orchestrator.RecordStepsOnlyAppends | src/services/orchestrator.py:136-160 | a save is best effort and only appends: the store keeps what it held, gains at most one state per step, each of them one of the states after a step, and logs an event only for a state it saved |
| Orchestrator.StatusValues | src/services/orchestrator.py:273 | the status values of the statuses, position by position |
| Orchestrator.TallyHistogram | src/services/orchestrator.py:273-274 | counting each status under its value gives the histogram of the values |
| Orchestrator.Failures | src/services/orchestrator.py:278-279 | the number of failures never exceeds the number of statuses counted |
| Orchestrator.OutcomesBalance | src/services/orchestrator.py:276-279 | no complaint counts both as a success and a failure; when every complaint ended its run, each counts as exactly one of them |
| Orchestrator.StatusCounts | src/services/orchestrator.py:273-274 | a status is counted under its value exactly as often as it occurs, because distinct statuses have distinct values |
| Orchestrator.CountStep | src/services/orchestrator.py:269-279 | counting one more status bumps its value, adds one success exactly when it is COMPLETED and one failure exactly when it is a failure |
| Orchestrator.Take | src/services/orchestrator.py:237 | Python's `xs[:n]`: a prefix, of length `n` capped at the length, or with a negative `n` that many elements short of the end |
| Orchestrator.FromSource | src/services/orchestrator.py:229-233 | keeps exactly the complaints from the given source |
| Orchestrator.Assigned | src/agents/collector.py:86-87 | position by position, each complaint with its id assigned from the matching fresh id |
| Orchestrator.Selected | src/services/orchestrator.py:224-242 | every complaint of the batch has an id; without a list the batch is drawn from what was loaded, filtered by the non-empty source filter, and limited; with a list it is no longer than the list; a positive limit bounds it |
| Orchestrator.Raws | src/services/orchestrator.py:232 | the complaints the states hold, position by position |
| Orchestrator.KeepSource | src/services/orchestrator.py:230-233 | the source filter on states keeps only states it was given |
| Orchestrator.KeepSourceRaws | src/services/orchestrator.py:229-233 | filtering states by source keeps exactly the complaints that filtering the complaints would keep |
| Orchestrator.RawsAppend | src/services/orchestrator.py:230-233 | the complaints of two runs of states are the two runs of complaints, one after the other |
| Orchestrator.RawsTail | src/services/orchestrator.py:230-233 | the complaints after the first state's are those of the remaining states |
| Orchestrator.CollectedStates | src/services/orchestrator.py:226 | the states the collector builds hold the complaints with their ids, are distinct objects and carry no errors |
| Orchestrator.KeepSourceDistinct | src/services/orchestrator.py:230-233 | filtering distinct states leaves distinct states |
| Orchestrator.RawsLimited | src/services/orchestrator.py:236-237 | limiting the states limits their complaints alike and keeps a prefix, so distinct states stay distinct |
| Orchestrator.Store.constructor | src/services/orchestrator.py:97-98 | a newly connected store holds no states and no events |
| Orchestrator.Store.SaveComplaint | src/services/orchestrator.py:149 | the state is appended to the saved states exactly when the save succeeds, and the result says whether it did |
| Orchestrator.Store.LogEvent | src/services/orchestrator.py:150-157 | the event is appended to the log exactly when the write succeeds, and the result says whether it did |
| Orchestrator.Stats.constructor | src/services/orchestrator.py:65-70 | every counter starts at zero and the per-status counts are empty |
| Orchestrator.Stats.Count | src/services/orchestrator.py:269-279 | the total goes up by one, the status value's count by one, successes by one exactly for COMPLETED and failures by one exactly for a value starting with FAILED, and the counters still agree with the statuses counted |
| Orchestrator.Stats.Reset | src/services/orchestrator.py:299-306 | every counter back to zero and the per-status counts empty |
| Orchestrator.Stats.Read | src/services/orchestrator.py:288-289 | the counters add up: the per-status counts sum to the total, each status is counted as often as it occurred, successes plus failures never exceed the total and equal it when every complaint ended its run |
| Orchestrator.ErrorsOf | src/services/orchestrator.py:263 | the errors each state held, position by position |
| Orchestrator.AppendPointwise | src/services/orchestrator.py:257-265 | statuses counted position by position after the earlier ones are the earlier ones followed by them |
| Orchestrator.ComplaintOrchestrator.constructor | src/services/orchestrator.py:41-70 | keeps both flags, starts uninitialised with no store, zero counters and valid agents |
| Orchestrator.ComplaintOrchestrator.NewAnalyst | src/agents/analyst.py:311-321 | a fresh, valid, uninitialised analyst without an LLM client |
| Orchestrator.ComplaintOrchestrator.Initialize | src/services/orchestrator.py:72-105 | a no-op once initialised; otherwise raises the analyst's client error, else the router's loader error, and is initialised exactly when nothing was raised; then the collector, privacy agent, analyst and communicator are ready, the router holds the loaded teams with their categories added to its map and search mode off when its client failed, and the store is the service unless persistence is off or its connection failed |
| Orchestrator.ComplaintOrchestrator.InitializeAgents | src/services/orchestrator.py:86-91 | the agents are initialised in order and the first error is raised; when none is, every agent is ready and the router holds the loaded teams, its map built onto the old one and search mode off when its client failed |
| Orchestrator.ComplaintOrchestrator.SaveState | src/services/orchestrator.py:136-160 | without a store nothing changes; otherwise the state is saved and the step's event logged as far as the store allows, and the complaint's state is never changed |
| Orchestrator.ComplaintOrchestrator.AnonymizeStep | src/services/orchestrator.py:174-177 | the state gains the anonymised complaint and moves to ANONYMIZED, then it is saved |
| Orchestrator.ComplaintOrchestrator.AnalyzeStep | src/services/orchestrator.py:179-182 | the analysis ends in ANALYZED or FAILED_LLM, then the state is saved |
| Orchestrator.ComplaintOrchestrator.RouteStep | src/services/orchestrator.py:188-191 | the routing ends in ROUTED or FAILED_ROUTING, then the state is saved |
| Orchestrator.ComplaintOrchestrator.CommunicateStep | src/services/orchestrator.py:197-200 | communication ends in COMPLETED or FAILED_JIRA, then the state is saved |
| Orchestrator.ComplaintOrchestrator.ExecuteWorkflow | src/services/orchestrator.py:162-202 | the steps run in order; the run stops after the analysis exactly when it failed and after the routing exactly when it failed; it always ends in a terminal status; the store holds the save that followed each step taken |
| Orchestrator.ComplaintOrchestrator.ProcessComplaint | src/services/orchestrator.py:107-134 | raises exactly when the needed initialisation fails, counting nothing; otherwise returns a fresh state for the complaint with its id, run to a terminal status, with that status counted and each step's save recorded |
| Orchestrator.ComplaintOrchestrator.RunNew | src/services/orchestrator.py:120-134 | the collector's state for the complaint, run through the workflow to a terminal status and counted |
| Orchestrator.ComplaintOrchestrator.RunCounted | src/services/orchestrator.py:128-132 | the workflow ends in a terminal status, and that status is counted |
| Orchestrator.ComplaintOrchestrator.RecordCrash | src/services/orchestrator.py:260-264 | a record whose run raised moves to FAILED_LLM with the exception's text appended to its errors |
| Orchestrator.ComplaintOrchestrator.CollectEach | src/services/orchestrator.py:239-242 | one new state per complaint, in order, each the collector's initial state for the complaint with its id |
| Orchestrator.ComplaintOrchestrator.SelectLoaded | src/services/orchestrator.py:225-237 | the states for everything loaded, filtered by source then limited, hold the selected complaints, are distinct and new, and carry no errors |
| Orchestrator.ComplaintOrchestrator.SelectGiven | src/services/orchestrator.py:238-242 | one new state per complaint of the limited list, holding it with its id, distinct and without errors |
| Orchestrator.ComplaintOrchestrator.RunOne | src/services/orchestrator.py:248-265 | the record ends in a terminal status and is counted; when its run raised it is FAILED_LLM with the exception's text appended |
| Orchestrator.ComplaintOrchestrator.Advance | src/services/orchestrator.py:249-264 | the workflow runs, or the raised exception is recorded; either way the record ends in a terminal status |
| Orchestrator.ComplaintOrchestrator.RunNth | src/services/orchestrator.py:248-265 | running the next record of the batch advances the loop's progress by one record and leaves the other records' status and errors alone |
| Orchestrator.ComplaintOrchestrator.RunBatch | src/services/orchestrator.py:246-267 | one result per state, in order; each ends in a terminal status and is counted in that order; a record whose run raised is FAILED_LLM with the exception's text appended, and the batch goes on after it |
| Orchestrator.ComplaintOrchestrator.ProcessBatch | src/services/orchestrator.py:204-267 | raises exactly when the needed initialisation fails, counting nothing; otherwise the results hold exactly the selected complaints as new states, each run to a terminal status and counted in order, a raised run leaving FAILED_LLM with its text as the only error |
| Orchestrator.ComplaintOrchestrator.GetStats | src/services/orchestrator.py:281-297 | the counters, which add up, then each agent's name and status once the agents were obtained, and none before |
| Orchestrator.ComplaintOrchestrator.ResetStats | src/services/orchestrator.py:299-306 | every counter back to zero and the per-status counts empty |
| ComplaintGraph.ComplaintId | src/graphs/complaint_graph.py:52-61 | the root `complaint_id` whenever that key exists, whatever its value; otherwise always a truthy value |
| ComplaintGraph.ComplaintIdPrecedence | src/graphs/complaint_graph.py:58-61 | without a root id, a truthy raw id wins over the external id, which wins over "unknown"; the result is "unknown" exactly when one of those gave "unknown" or neither is truthy |
| ComplaintGraph.DefaultsKeepAndFill | src/graphs/complaint_graph.py:64-81 | raises exactly when the state has no truthy source and its raw value is not a dict; otherwise every field keeps its value when present, a missing status is NEW, step "new", errors empty, start time the clock reading, any other missing field `None`, and the result holds exactly the graph's thirteen fields |
| ComplaintGraph.AsDictFields | src/graphs/complaint_graph.py:136-144 | reading each field back from the dict a node returns gives that field |
| ComplaintGraph.SettledFixed | src/graphs/complaint_graph.py:64-81 | filling in the defaults of a state that has them all gives it back unchanged, whatever the clock says |
| ComplaintGraph.DefaultsSettled | src/graphs/complaint_graph.py:68 | the state `ensure_defaults` returns keeps the source it chose on a second pass |
| ComplaintGraph.DefaultsIdempotent | src/graphs/complaint_graph.py:64-81 | filling in the defaults twice is the same as filling them in once, even with a different clock reading the second time |
| ComplaintGraph.EnsureDefaults | src/graphs/complaint_graph.py:64-85 | raises exactly when there is no truthy source and the raw value is not a dict; otherwise the state carries the complaint id `get_complaint_id` gives and the raw dict |
| ComplaintGraph.AnonymizeNode | src/graphs/complaint_graph.py:88-154 | never skips: it leaves ANONYMIZED or FAILED_ANONYMIZATION and changes nothing but the anonymised record, the step, the status and the errors |
| ComplaintGraph.AnalyzeNode | src/graphs/complaint_graph.py:157-233 | a failed state is passed on as it is; otherwise only the analysis, the step, the status and the errors change |
| ComplaintGraph.RouteNode | src/graphs/complaint_graph.py:236-316 | a failed state is passed on as it is; otherwise only the routing decision, the step, the status and the errors change |
| ComplaintGraph.IntendedCommunicateThrown | src/graphs/complaint_graph.py:331-378 | the body's raises before the ticket is logged: nothing only when the agent returned, and the routing message when the records rebuild but there is no routing decision |
| ComplaintGraph.CommunicateThrown | src/graphs/complaint_graph.py:331-390 | as written the body returns exactly when nothing before the log raised and no ticket was filed; a filed ticket raises the `ticket_key` attribute error |
| ComplaintGraph.CommunicateNode | src/graphs/complaint_graph.py:319-408 | a failed state is passed on as it is; otherwise only the ticket, the notification, the step, the status, the errors and the completion time change |
| ComplaintGraph.IntendedCommunicateNode | src/graphs/complaint_graph.py:319-408 | the node with its log line reading `jira_key`: the same skip and the same fields changed |
| ComplaintGraph.FiledTicketFails | src/graphs/complaint_graph.py:384-408 | as written, a filed ticket makes the node end FAILED_JIRA with one more error, recording neither the ticket nor the notification nor a completion time |
| ComplaintGraph.IntendedNodeCompletes | src/graphs/complaint_graph.py:384-398 | with `jira_key` read, a completed communicator makes the node store the ticket and notification, step "completed", COMPLETED and the completion time, with the errors unchanged |
| ComplaintGraph.CompletesOnlyWithoutTicket | src/graphs/complaint_graph.py:384-408 | as written, the communicate node leaves COMPLETED only when the communicator filed no ticket |
| ComplaintGraph.GraphCompletesOnlyWithoutTicket | src/graphs/complaint_graph.py:415-438 | as written, the whole graph ends COMPLETED only when the communicator filed no ticket |
| ComplaintGraph.Node | src/graphs/complaint_graph.py:425-429 | no node changes the complaint id, the source, the raw record or the start time that `ensure_defaults` settled on |
| ComplaintGraph.RunFrom | src/graphs/complaint_graph.py:431-436 | running the nodes from any one on keeps the complaint id, raw record and start time the first of them settled on |
| ComplaintGraph.RunGraph | src/graphs/complaint_graph.py:415-438 | the compiled graph, START to END, ends with the complaint id, raw record and start time its first node settled on |
| ComplaintGraph.Then | src/graphs/complaint_graph.py:171-207 | of two steps run in order, nothing is raised exactly when neither raises, and the first one's exception wins |
| ComplaintGraph.Failed | src/graphs/complaint_graph.py:225-233 | the except branch works exactly when the errors are a list; it then appends one prefixed error and sets the failure status, leaving every other field alone |
| ComplaintGraph.SkipsAfterFailure | src/graphs/complaint_graph.py:166-169 | the analyze, route and communicate nodes return a state whose status starts with FAILED unchanged |
| ComplaintGraph.FailureSticks | src/graphs/complaint_graph.py:432-436 | once a node leaves a failed state, every node after it to the end of the graph leaves it unchanged |
| ComplaintGraph.NodeSettled | src/graphs/complaint_graph.py:88-408 | every node that returns, whether it skipped, succeeded or failed, returns a state with all its defaults filled in |
| ComplaintGraph.GraphStopsAtFailure | src/graphs/complaint_graph.py:415-438 | the graph's result is the state returned by the first node that fails |
| ComplaintGraph.NodeFailure | src/graphs/complaint_graph.py:146-154 | a node whose body raises returns exactly when the errors are a list; it then appends exactly one error with the node's prefix and sets the node's failure status, changing nothing else; for the communicate node a filed ticket is such a raise |
| ComplaintGraph.Failure | src/graphs/complaint_graph.py:153 | every node's failure status starts with FAILED |
| ComplaintGraph.NodeKeepsErrors | src/graphs/complaint_graph.py:218-223 | a node whose body returns keeps the errors the state came with, dropping the agent's own, and the analyze, route and communicate nodes store the agent's status; the communicate node's body returns only when the communicator filed no ticket |
| ComplaintGraph.MissingInputFails | src/graphs/complaint_graph.py:259-261 | with no analysis the route node fails with FAILED_ROUTING and its own message; with no routing decision the communicate node fails with FAILED_JIRA and its own message |
| ComplaintGraph.AnonymizationFailureOutsideEnum | src/graphs/complaint_graph.py:153 | FAILED_ANONYMIZATION is no workflow status value, yet the later nodes read it as a failure |

## Findings

| source | as written | input that shows it | evidently intended | confidence | as-written member | corrected member |
|---|---|---|---|---|---|---|
| src/graphs/complaint_graph.py:386 | the communicate node logs `result.ticket_info.ticket_key`, but `TicketInfo` has `jira_key` and no `ticket_key`, so pydantic raises `AttributeError` inside the node's `try` | a routed state whose communicator run files a ticket and completes: the node ends FAILED_JIRA with "Communication error: 'TicketInfo' object has no attribute 'ticket_key'" and records neither ticket, notification nor completion time, so the graph never ends COMPLETED with the mock clients | log `jira_key`; the node then stores the ticket and notification and ends COMPLETED | high (not executed) | ComplaintGraph.FiledTicketFails | ComplaintGraph.IntendedNodeCompletes |

The graph (`ComplaintGraph.Node`, `ComplaintGraph.RunGraph`) follows the
code as written. `ComplaintGraph.IntendedCommunicateNode` is the node as
intended.

## Left out

- Logging, `async`/`await`, and the event-loop and thread-pool plumbing inside the graph's nodes. They carry no logic the outcomes depend on.
- The LLM completion, `json.loads`, the team loader's file reading, the search index, the document store, `uuid4` and `datetime.utcnow()`. They are parameters: each says what the collaborator returns or the text it raises. The loaded complaints, fresh ids and clock readings are inputs.
- Whether a record's run in `process_batch` raises, and with what text, is the `crashes` parameter of `ProcessBatch`. No modelled stage raises, so this parameter is the only way into that `except` branch.
- The singleton `get_*` factories. The orchestrator builds its own agents and clients; the graph's nodes are given each agent's outcome.
- Pydantic validation and `model_dump`. Rebuilding a record from a graph dict is modelled only as "raises this text or not" (`ComplaintGraph.Checks`). A non-dict value raises a fixed text standing in for Python's message.
- Aliasing of the error list in the graph. An `except` branch appends to the list shared with the dict the node was given. The model returns a new dict whose list has the entry and does not show the caller's dict changing.
- Each graph node reads the clock separately for a missing `started_at`. The model uses one reading per run of the graph.
- `collect_single` assigns the id on the caller's `ComplaintRaw` object. The model's complaints are values, so the caller's record is not shown changing; the state holds the complaint with its id.
- `except` branches that nothing the model calls can reach:
  - the router's generic "Routing failed" wrapper;
  - the communicator's catch of an exception thrown inside the Jira or e-mail simulators. Missing clients are modelled.
- Rendering of e-mail bodies and of the Jira ticket description. The messages keep the fields they are rendered from (`MockEmail.EmailBody`); the 500-character excerpt and the subject rules are modelled.
- The analysis and routing passed to `create_ticket` are only logged there, so the model's `CreateTicket` does not take them.
- The LLM client's connection settings, and the temperature and token limit that `analyze` sets on the client when they differ from the defaults. They change only the request sent to the LLM.
- Unicode in general:
  - `str.lower()` covers ASCII and Latin-1 letters only;
  - `\s` and `str.strip()` use the full set of characters that Python's `str.isspace` accepts (`Text.IsSpace`), Unicode spaces included;
  - `\d` is ASCII digits only.
  The keyword lists, category names and the four PII patterns need nothing beyond these.
- Python regular expressions beyond the four PII patterns. `PiiMatch` handles sequences of quantified character classes, which is all those patterns use.
- The FastAPI layer, the CLI scripts, the Cosmos and Azure Search SDK wrappers, configuration and tracing are outside the modelled core.
- MockEmail.MockEmailClient.GetSentEmails: returns the outbox's sequence itself. Sequences are values in Dafny, so the copy `get_sent_emails` makes cannot be told apart from it, and the contract only says what is returned.
