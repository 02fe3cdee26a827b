# discovery_app in Dafny

A model of the deterministic core of the sales discovery app: a Streamlit application that
researches a prospect company, asks a completion service (Snowflake Cortex) for discovery
questions, architecture diagrams and outreach, and saves discovery sessions to Snowflake
tables. What the model covers, file by file:

- `values.dfy` (`Values`): the JSON-shaped values the application passes around (`None`,
  booleans, integers, strings, lists and insertion-ordered dictionaries), with Python
  truthiness and `dict.get`.
- `text.dfy` (`Text`): the string primitives the code relies on (`lower`, `strip`, `find`,
  `rfind`, `replace`, `split`, `join`, `title`, `in`), over the ASCII tables.
- `session_store.dfy` (`SessionStore`): `st.session_state` as a class holding a
  `map<string, Value>` that every page and helper updates in place.
- `snowflake_utils.dfy` (`SnowflakeUtils`, from `modules/snowflake_utils.py`): the load
  gate, the memoised connection and `execute_query`'s retry loop, over a scripted backend
  that answers each attempt with rows or an error message; the guards and parameter
  construction of the account and expert searches.
- `completion.dfy` (`Completion`, `cortex_request` of `modules/llm_functions.py`): quote
  escaping of the prompt, the naive first extraction of JSON, the single repair request and
  the counted-bracket walk applied to the repaired text only. `json.loads` is a parameter.
- `llm_post.dfy`, `autofill.dfy`, `questions.dfy`, `diagrams.dfy`, `drawio.dfy`
  (`modules/llm_functions.py`): shaping and ordering generated questions, the autofill merge
  that never overwrites an answer, the keyword classification into Technical, Business and
  Competitive (defined once, used by every copy in the source), the mermaid and XML
  extraction, the draw.io document and the export file names.
- `expert_search.dfy` (`Experts`, `modules/expert_search.py`): skill-cell parsing, relevance
  scores, the Freestyle and Salesforce searches, and the merge and ordering of
  `find_experts_for_company`.
- `sales.dfy`, `sales_report.dfy`, `auto_populate.dfy` (`modules/sales_functions.py`):
  discovery notes, the people-research upsert, adding questions to a category or an
  initiative, the outreach email kept, the session summary and the answers gained by
  `auto_populate_answers`.
- `discovery_app.dfy` (`DiscoveryApp`, `discovery_app_streamlit.py`): the favourite toggle,
  question deletion, session clearing, the answer-widget sync, the two question generators
  and the company-name derivation.
- `state_manager.dfy` (`StateManagement`, `shared/state_manager.py`): default
  initialisation, the session-id hand-over, clearing with preserved keys, the `has_*`
  predicates and the summary counts.
- `session_management.dfy` and `session_management_v2.dfy` (`modules/session_management.py`,
  `modules/session_management_v2.py`): session names, key clearing, what a save writes
  (one JSON row, or numbered rows in the normalised tables), the counts of the saved-session
  list, loading a session back into the store, starting a new session and deleting one.

Completion replies, query results, `json.loads`, `str`, fresh UUIDs and clock times are
parameters of the operations that use them; each such parameter is named in the doc comment
of the member that takes it.

## Model

| member | source | states |
|---|---|---|
| SnowflakeUtils.TransientIgnoresCase | modules/snowflake_utils.py:78-80 | the transient-error test reads the lower-cased message, so it gives the same verdict for the message in any case |
| SnowflakeUtils.RunStep | modules/snowflake_utils.py:56-96 | one attempt of the retry loop: a transient error with attempts left costs one attempt and a sleep of `1 + attempt` seconds and goes on; rows, a permanent error or the last attempt end the run, errors with an empty result |
| SnowflakeUtils.RunShape | modules/snowflake_utils.py:56-90 | from any attempt on, the run never exceeds the attempt bound, sleeps once fewer than it attempts, and sleeps `1 + attempt` seconds before each retry |
| SnowflakeUtils.RunBounds | modules/snowflake_utils.py:56-90 | a whole run makes at most `max_retries` attempts and sleeps 1, 2, … seconds between them |
| SnowflakeUtils.BusyBackend | modules/snowflake_utils.py:80-93 | three busy answers in a row cost three attempts and sleeps of 1 then 2 seconds, and give an empty result rather than an error |
| SnowflakeUtils.PermanentFailure | modules/snowflake_utils.py:94-96 | an error that names neither concurrency nor a limit is not retried: one attempt, no sleep, empty result |
| SnowflakeUtils.RunRowsFromScript | modules/snowflake_utils.py:75-97 | the rows returned are empty or exactly a table the backend answered: an error never escapes as anything else |
| SnowflakeUtils.MidwayNext | modules/snowflake_utils.py:77-90 | a retried attempt (sleep, connection dropped) keeps the loop state in step with the specification of the run |
| SnowflakeUtils.MidwayStop | modules/snowflake_utils.py:75-96 | an attempt that ends the loop leaves exactly the rows, sent queries, sleeps and connections the specification of the run gives |
| SnowflakeUtils.QueryLayer.MarkAppLoaded | modules/snowflake_utils.py:22-25 | sets the load gate and changes nothing else |
| SnowflakeUtils.QueryLayer.GetConnection | modules/snowflake_utils.py:27-42 | creates a connection only when there is none and otherwise hands back the memoised one |
| SnowflakeUtils.QueryLayer.ExecuteQuery | modules/snowflake_utils.py:49-97 | before the app is loaded: empty result and no query; afterwards the rows, the queries sent, the sleeps and the connections created are those of the run specification |
| SnowflakeUtils.QueryLayer.Retry | modules/snowflake_utils.py:56-97 | the `for attempt in range(max_retries)` loop reaches the final state of the run specification |
| SnowflakeUtils.QueryLayer.Step | modules/snowflake_utils.py:57-96 | one loop body: take or create the connection, send the query once, and on a transient error with attempts left sleep and drop the connection |
| SnowflakeUtils.QueryLayer.SearchAccountsLive | modules/snowflake_utils.py:176-198 | a missing or one-character term sends nothing, never sleeps, leaves the connection alone and gives no rows; otherwise every attempt sends the term wrapped in `%` and the limit. Before the app is loaded no query is sent, nothing sleeps, the connection is untouched and no rows come back; afterwards the rows, attempts, sleeps and connection resets are those of the `execute_query` retry loop, and the loaded flag never changes |
| SnowflakeUtils.QueryLayer.AccountById | modules/snowflake_utils.py:203-226 | an empty id sends nothing, never sleeps, leaves the connection alone and gives no rows; otherwise every attempt sends the id as its only parameter. Before the app is loaded no query is sent, nothing sleeps, the connection is untouched and no rows come back; afterwards the rows, attempts, sleeps and connection resets are those of the `execute_query` retry loop, and the loaded flag never changes |
| SnowflakeUtils.QueryLayer.AccountsByDomain | modules/snowflake_utils.py:231-259 | an empty domain sends nothing, never sleeps, leaves the connection alone and gives no rows; otherwise every attempt matches the cleaned domain anywhere in the website. Before the app is loaded no query is sent, nothing sleeps, the connection is untouched and no rows come back; afterwards the rows, attempts, sleeps and connection resets are those of the `execute_query` retry loop, and the loaded flag never changes |
| SnowflakeUtils.QueryLayer.ExpertsBySkills | modules/snowflake_utils.py:295-337 | empty text sends nothing, never sleeps, leaves the connection alone and gives no rows; otherwise every attempt sends three `%`-wrapped parameters per comma-separated skill, in order. Before the app is loaded no query is sent, nothing sleeps, the connection is untouched and no rows come back; afterwards the rows, attempts, sleeps and connection resets are those of the `execute_query` retry loop, and the loaded flag never changes |
| SnowflakeUtils.Wildcard | modules/snowflake_utils.py:197 | `f"%{s}%"` is `s` with one `%` added at each end |
| SnowflakeUtils.FlatMapTriples | modules/snowflake_utils.py:308-314 | the parameter list holds, at positions `3i` to `3i+2`, the three parameters of the i-th skill |
| SnowflakeUtils.SkillConditions | modules/snowflake_utils.py:302-316 | the loop builds one condition per comma-separated piece joined by ` OR `, and their parameters in order |
| StateManagement.WithDefaults | shared/state_manager.py:64-66 | the store after installing defaults has exactly the old keys plus the default keys |
| StateManagement.WithDefaultsSpec | shared/state_manager.py:24-66 | installing defaults keeps every value already present, fills every missing default key with its default, and is idempotent |
| StateManagement.InstallDefaults | shared/state_manager.py:64-66 | the key-by-key loop that skips present keys ends in the store `WithDefaults` describes |
| StateManagement.StateManager.constructor | shared/state_manager.py:20-22 | a new manager installs the defaults and then performs the session-id hand-over on the shared store |
| StateManagement.StateManager.InitSessionState | shared/state_manager.py:24-66 | the store afterwards is the old store with the missing defaults installed |
| StateManagement.Transitioned | shared/state_manager.py:68-72 | a pending just-created id becomes the selected session id and disappears, every other key is unchanged; without one the store is unchanged |
| StateManagement.StateManager.HandleSessionIdTransition | shared/state_manager.py:68-72 | the store afterwards is the hand-over `Transitioned` describes |
| StateManagement.StateManager.GetCompanyContext | shared/state_manager.py:74-76 | the company dictionary (empty when missing); the company flag holds exactly when it has a truthy website (also lines 138-140) |
| StateManagement.StateManager.GetDiscoveryData | shared/state_manager.py:78-87 | a dictionary with the six discovery keys in order, the questions taken from the store or empty |
| StateManagement.StateManager.UpdateExpertContext | shared/state_manager.py:89-91 | the expert context is replaced by the given findings and reading it back yields them; afterwards the summary raises when the findings are not a dictionary, and otherwise counts `len` of the experts they list (also line 155) |
| StateManagement.StateManager.GetExpertContext | shared/state_manager.py:93-95 | the stored expert context, or an empty dictionary when none is stored |
| StateManagement.Preserved | shared/state_manager.py:99-112 | what survives the wipe is at most the session id, the model and the current user |
| StateManagement.StateManager.ClearSession | shared/state_manager.py:97-115 | the store afterwards is the preserved identifiers with the defaults installed again |
| StateManagement.ClearSessionSpec | shared/state_manager.py:97-115 | after clearing every other default key holds its default, no other key survives but a truthy user, the session id is kept only when asked (otherwise "new"), and the model is kept |
| StateManagement.ClearedSessionIsEmpty | shared/state_manager.py:97-115 | a cleared session has no company and no discovery questions, and its summary is company "None" with no questions, roadmap items or experts (also lines 138-162) |
| StateManagement.FetchedUser | shared/state_manager.py:119-135 | a user other than the generic fallback is only ever the `USER` value of the first row of the query, and only when the store was not empty |
| StateManagement.StateManager.GetCurrentUser | shared/state_manager.py:117-136 | afterwards a current user is always stored and returned; an already stored user is kept and nothing else changes |
| StateManagement.LengthSumCountsQuestions | shared/state_manager.py:153 | when every category holds a list, the summed `len` of the categories is the number of questions in all categories put together |
| StateManagement.FrameLength | shared/state_manager.py:155 | a roadmap held as rows has as many items as rows, and an empty frame has none |
| StateManagement.SummaryOf | shared/state_manager.py:150-162 | the summary raises exactly when the company record, the questions or the expert context is not a dictionary, or a category, the roadmap or the expert list has no `len`; otherwise the company is the stored website or "None", the question count is the number of questions in all category lists, and the roadmap and expert counts are their `len` |
| StateManagement.StateManager.GetSessionSummary | shared/state_manager.py:150-162 | the manager reports (or raises on) the summary of its shared store as `SummaryOf` describes |
| Values.LengthSum | shared/state_manager.py:153 | the summed `len` over a dictionary's values raises exactly when some value has no `len` |
| Questions.Classify | modules/llm_functions.py:454-467 | a category naming technical work always wins; business only when not technical; a question lands in Competitive or Business only if its category or its text carries one of that bucket's keywords |
| Questions.DefaultIsTechnical | modules/llm_functions.py:466-467 | a question no category or text keyword matches is put in Technical |
| Questions.BucketsPartition | modules/llm_functions.py:440-467 | the three bucket lists together hold each dictionary question of the list exactly once and nothing else |
| Questions.GroupBy | modules/llm_functions.py:432-467 | the grouping loop yields the three-bucket dictionary `GroupedBy` describes |
| Questions.Categorize | modules/llm_functions.py:432-469 | the list path turns the question list into the Technical/Business/Competitive dictionary, each list in input order |
| Questions.GroupedIsPartition | modules/llm_functions.py:432-469 | the grouped form is a partition of the dictionary questions of the list |
| Autofill.ReplyAnswer | modules/llm_functions.py:521-525 | an answer is only ever taken from a dictionary reply, under the key numbering the question from 1, and only when it is truthy and not the string "null" |
| Autofill.FillAnswer | modules/llm_functions.py:524-531 | merging an answer keeps a dictionary a dictionary and a non-dictionary a non-dictionary |
| Autofill.FillNeverOverwrites | modules/llm_functions.py:524-531 | an answered question (or one without a usable reply) is unchanged, a blank one receives the reply's answer, and no key other than `answer` changes |
| Autofill.FillKeepsBucket | modules/llm_functions.py:454-467 | the merge never moves a question to a different bucket (also lines 524-527) |
| Autofill.Filled | modules/llm_functions.py:519-527 | merging a category keeps its number of questions |
| Autofill.FilledUpTo | modules/llm_functions.py:525-531 | a category merged as far as its n-th question keeps its number of questions |
| Autofill.RaiseIndex | modules/llm_functions.py:525-529 | the first question from the i-th on where `.strip()` raises is one the reply answers whose answer is present and not a string, and no question between the i-th and it (or after the i-th, when there is none) is such a question |
| Autofill.FillCategory | modules/llm_functions.py:521-531 | the per-question loop merges question i with the answer under key i + 1; it stops, raising, at the first question the reply answers whose own answer is present and not a string (`.strip()` at line 529), having merged exactly the questions before it, and otherwise yields the whole category merged |
| Autofill.FilledAppend | modules/llm_functions.py:521-522 | a question added at the end of a category takes the next answer number |
| Autofill.Categories | modules/llm_functions.py:431-473 | for input that passes the grouping and the category loop's reads without raising (a stored answer of any type), every category the merge visits is a list of dictionaries |
| Autofill.InBucketDicts | modules/llm_functions.py:440-467 | grouping keeps only dictionary questions |
| Autofill.Merged | modules/llm_functions.py:480-535 | the c-th category after the merge is that category merged with the c-th reply, under the same name |
| Autofill.FirstRaise | modules/llm_functions.py:480-531 | the first (category, question) at which the merge raises lies in the first category whose scan finds a raising question, and no category before it holds one |
| Autofill.FirstRaiseFinds | modules/llm_functions.py:480-531 | the scan reports a raise exactly when some category holds a question its reply answers whose answer is present and not a string |
| Autofill.MergedUpTo | modules/llm_functions.py:480-537 | the categories as a raise leaves them are as many as before |
| Autofill.MergeCategories | modules/llm_functions.py:480-537 | the category loop either merges every category with its reply, or stops at the first raise, having merged the categories before it and the questions before the raising one |
| Autofill.FlattenCategories | modules/llm_functions.py:542-547 | the flattening loop joins the merged category lists in order |
| Autofill.AutofillResult | modules/llm_functions.py:426-549 | the call returns `None` exactly when the notes are blank or the input falsy; it raises exactly when some question its category's reply answers holds an answer that is present and not a string; otherwise it returns a value of the input's shape (list for a list, dictionary for a dictionary); after a raise the caller's collection keeps its shape and size |
| Autofill.AutofillAnswers | modules/llm_functions.py:426-549 | the body (merge the categories until a raise, then flatten for list input) computes `AutofillResult`, including the raise and what it leaves |
| Autofill.ListResult | modules/llm_functions.py:432-549 | for list input on which the merge does not raise, the result is the Technical, then the Business, then the Competitive questions, each bucket merged with its own reply |
| Autofill.AfterFill | modules/llm_functions.py:519-527 | the caller's question list after the call keeps its length |
| Autofill.AfterFillUpTo | modules/llm_functions.py:521-531 | the caller's question list after a raise keeps its length |
| Autofill.AfterFillMerged | modules/llm_functions.py:440-467 | every dictionary in the caller's list is merged in place with the answer its bucket's reply numbers for it; everything else is untouched (also lines 519-527) |
| Autofill.AliasedBucket | modules/llm_functions.py:519-527 | each bucket of the list as the caller sees it afterwards is that bucket merged with its reply |
| Autofill.ListResultIsAliased | modules/llm_functions.py:519-546 | when the merge does not raise, the returned list holds the caller's own dictionaries as the call leaves them, bucket by bucket |
| Completion.EscapeWellFormed | modules/llm_functions.py:16 | after doubling quotes, every quote in the prompt stands in a pair, so the prompt cannot close the SQL literal early |
| Completion.UnescapeEscape | modules/llm_functions.py:16-17 | the SQL engine reads back exactly the original prompt from the escaped literal |
| Completion.EscapeUnescape | modules/llm_functions.py:16-17 | every well-formed literal body is the escape of the text it reads back as |
| Completion.ResponseText | modules/llm_functions.py:21-24 | an empty result yields no reply, and a reply is always the string in the first row's `RESPONSE` cell |
| Completion.NaiveCandidateSpec | modules/llm_functions.py:36-49 | the first pass has a candidate exactly when there is a `{` and a `}`, or no `{` but a `[` and a `]`; it is the slice from the first opener to the last closer, and an object candidate is empty or starts with `{` and ends with `}` |
| Completion.NaiveCandidateFound | modules/llm_functions.py:37-45 | when the first pass finds a candidate at all |
| Completion.NaiveObject | modules/llm_functions.py:37-38 | the object slice runs from the first `{` to the last `}` (also lines 45-46) |
| Completion.NaiveArray | modules/llm_functions.py:41-46 | with no `{`, the slice runs from the first `[` to the last `]` |
| Completion.MissingCloserFails | modules/llm_functions.py:37-49 | an object opener without any closing brace always fails the first pass, whatever the decoder |
| Completion.BalanceSnoc | modules/llm_functions.py:76-80 | reading one more character changes the bracket count by one opener or one closer |
| Completion.ClosingFrom | modules/llm_functions.py:76-81 | the scan stops at the first closer where the brackets balance, and the depth is positive everywhere before it |
| Completion.ClosingIndex | modules/llm_functions.py:72-81 | the matching closer is the first position after the opener where openers and closers balance; -1 when they never do |
| Completion.MatchingClose | modules/llm_functions.py:75-81 | the counting loop finds exactly the matching closer `ClosingIndex` defines |
| Completion.WalkCandidate | modules/llm_functions.py:72-101 | a walk candidate starts with its opener, ends with its closer and is balanced |
| Completion.TryWalk | modules/llm_functions.py:72-101 | one strategy decodes its walk candidate, and yields nothing without one |
| Completion.FromLines | modules/llm_functions.py:104-110 | the line fallback tries at most one decode per line |
| Completion.FromLinesFirstSuccess | modules/llm_functions.py:104-112 | the fallback yields the value of the first candidate line that decodes, all earlier candidate lines having failed, and nothing only when no candidate line decodes |
| Completion.TryLines | modules/llm_functions.py:104-112 | the line loop computes what `FromLines` describes |
| Completion.ExtractParses | modules/llm_functions.py:70-112 | at most two walk decodes plus one per line are tried, and any value found is the decode of the array candidate, of the object candidate or of the line fallback |
| Completion.ExtractAndParseJson | modules/llm_functions.py:70-112 | the three strategies in order compute `Extract` |
| Completion.EmptyResponseIsTerminal | modules/llm_functions.py:21-23 | an empty result or a null response returns nothing, with no decode and no repair |
| Completion.RawTextUnchanged | modules/llm_functions.py:32-33 | without structured output the reply text is returned unchanged |
| Completion.RepairOnlyOnce | modules/llm_functions.py:35-120 | the repair request is made exactly when the reply exists and the first pass fails; a first-pass value is returned as is after one decode; a repaired value is never falsy; and the decodes tried are bounded |
| Completion.BusyBackendGivesNothing | modules/llm_functions.py:20-23 | a backend busy on all three attempts makes the request return nothing without decoding (also modules/snowflake_utils.py:78-92) |
| Completion.CortexRequest | modules/llm_functions.py:10-125 | the completion command (escaped prompt, chosen model) is sent with its retries, and what follows is what `Respond` decides: the same value, and a repair query only when it repairs |
| Completion.Interpret | modules/llm_functions.py:21-125 | from the completion rows on, the request returns `Respond`'s value and sends the repair query only on the repair path |
| Completion.RespondFirst | modules/llm_functions.py:45-47 | a reply whose first pass decodes is returned without repair |
| Completion.RespondRepaired | modules/llm_functions.py:50-120 | a reply whose first pass fails is answered by the repair path |
| Completion.Repair | modules/llm_functions.py:54-120 | the repair request sends the repair prompt once with its retries and returns the walk's result on the stripped reply, falsy values dropped |
| LlmPost.Items | modules/llm_functions.py:172-192 | iterating a list yields its items, a string its characters, a dictionary its keys |
| LlmPost.NewQuestionFields | modules/llm_functions.py:175-181 | a freshly made question has distinct keys, an empty answer and no favourite mark, so it counts as unanswered |
| LlmPost.ToQuestion | modules/llm_functions.py:175-191 | a reply item becomes a new question under the given id; a non-dictionary item is its own text with the default explanation |
| LlmPost.Build | modules/llm_functions.py:174-192 | one new question per reply item, in order, the i-th under the i-th fresh id |
| LlmPost.Processed | modules/llm_functions.py:170-192 | processing the reply categories only ever consumes fresh ids |
| LlmPost.ProcessCategories | modules/llm_functions.py:170-192 | the processing loop yields `Processed`'s categories, with distinct keys, each a list of new questions |
| LlmPost.OrderCategories | modules/llm_functions.py:194-205 | the two ordering loops compute `Ordered` |
| LlmPost.DiscoveryQuestions | modules/llm_functions.py:168-208 | a falsy reply gives `{}` and consumes no id; otherwise the processed categories in order, each a list of new questions |
| LlmPost.SetKeyFresh | modules/llm_functions.py:174 | storing a list of new questions under a key keeps every category a list of new questions (also line 184) |
| LlmPost.EmptyCompetitorRoutesAll | modules/llm_functions.py:171-182 | with an empty competitor every reply category is routed to the competitive key, so only the last one's questions survive |
| LlmPost.LeadKeys | modules/llm_functions.py:195-201 | the fixed-order loop takes the Technical, Business and competitive categories that are present, in that order, with their processed questions |
| LlmPost.LeadOfThree | modules/llm_functions.py:197-201 | over three categories with distinct initials the loop takes exactly the present ones, in order |
| LlmPost.RestKeys | modules/llm_functions.py:203-205 | the second loop appends, in processing order, each category the first loop did not take |
| LlmPost.RestAgrees | modules/llm_functions.py:203-205 | the second loop only copies processed entries |
| LlmPost.OrderedContents | modules/llm_functions.py:194-207 | the result holds exactly the processed categories with their processed questions: the known three first, then the others in processing order |
| LlmPost.SameContents | modules/llm_functions.py:194-207 | reordering loses and adds nothing: every key maps to the same questions |
| LlmPost.AgreeingFresh | modules/llm_functions.py:194-207 | reordering keeps every category a list of new questions |
| LlmPost.FirstFive | modules/llm_functions.py:293 | slicing `[:5]` keeps the first five items (or characters), in order (also lines 296 and 301) |
| LlmPost.FirstListAt | modules/llm_functions.py:299-301 | the first list-valued entry of a dictionary, every earlier entry being no list |
| LlmPost.SelectQuestions | modules/llm_functions.py:290-304 | a list reply gives its first five items, a dictionary its `questions` entry's or else its first list's first five, and anything else an empty list; never more than five (`generate_custom_topic_questions`, lines 332-344, closes with the same selection) |
| LlmPost.MoreQuestions | modules/llm_functions.py:375-386 | a truthy reply gives one new question per item, each under a fresh id; a falsy one gives none |
| Diagrams.PySlice | modules/llm_functions.py:1169 | Python slicing with an in-range end is the plain slice, and an end of -1 drops the last character |
| Diagrams.CodeStart | modules/llm_functions.py:1167 | the code starts right after the first mermaid fence of the reply |
| Diagrams.MermaidAsWritten | modules/llm_functions.py:1162-1175 | the extraction as written yields nothing exactly for a failed or empty reply |
| Diagrams.MermaidCode | modules/llm_functions.py:1162-1175 | nothing exactly for a failed or empty reply; a reply without a mermaid fence is returned stripped |
| Diagrams.FencedBlock | modules/llm_functions.py:1166-1170 | a reply holding one fenced mermaid block yields exactly the stripped block |
| Diagrams.UnclosedFenceLosesLastChar | modules/llm_functions.py:1167-1169 | with no closing fence, the code as written drops the reply's last character, which the corrected extraction keeps |
| Diagrams.UnclosedFenceExample | modules/llm_functions.py:1166-1170 | the reply "```mermaid\ngraph TD" yields "graph T" as written and "graph TD" corrected |
| Diagrams.XmlSlice | modules/llm_functions.py:1408-1418 | a document exists exactly when the reply holds `<?xml`; it starts there and, when it holds `</mxfile>`, ends at the first one |
| Diagrams.ClosePrefix | modules/llm_functions.py:1414-1416 | cutting after the first `</mxfile>` leaves it at the end and no earlier one |
| Diagrams.GenerateXml | modules/llm_functions.py:1405-1426 | with the corrected mermaid extraction: the reply's document is returned when there is one; only otherwise is non-empty mermaid code converted; nothing when both fail |
| Diagrams.EscapeChar | modules/llm_functions.py:1203 | a character is changed exactly when it is `&`, `<`, `"` or a newline |
| Diagrams.EscapedIsLegal | modules/llm_functions.py:1197 | the escaped code holds no `<`, no `"` and no raw newline, so it is a legal attribute value (also line 1203) |
| Diagrams.UnescapeEscape | modules/llm_functions.py:1197 | an XML reader reads the escaped attribute back as exactly the mermaid code (also line 1203) |
| Diagrams.EscapeAsWrittenExamples | modules/llm_functions.py:1203 | as written, `a<b` reaches the attribute unescaped and code holding `&lt;` reads back as `<` |
| Diagrams.SafeCompany | modules/llm_functions.py:1214 | the file-name stem keeps the name's length, turns every dot and space into `_`, and lower-cases every other character |
| Diagrams.ExportNamesShareStem | modules/llm_functions.py:1237-1239 | the mermaid and draw.io files share their stem and differ only in their extension |
| Diagrams.Choose | modules/llm_functions.py:1408-1426 | the document when there is one; the mermaid code, converted, only when there is no document and the code is non-empty; nothing exactly when there is neither |
| Diagrams.GenerateXmlAsWritten | modules/llm_functions.py:1405-1426 | as written, with the fallback calling the mermaid extraction as written: the same choice over that extraction's result |
| Diagrams.FallbackExample | modules/llm_functions.py:1420-1424 | with no document in the reply and the mermaid reply "```mermaidx", the code as written returns nothing and the corrected code converts "x" |
| Diagrams.EscapeAsWritten | modules/llm_functions.py:1203 | the escaping as written leaves no raw newline and no `"` in the value |
| Diagrams.EscapeAttr | modules/llm_functions.py:1203 | the escaped value is never shorter than the code |
| Diagrams.Unescape | modules/llm_functions.py:1197 | reading the references back never lengthens the value |
| Diagrams.AttributeFile | modules/llm_functions.py:1186-1203 | the fixed text before and after the value comes through unchanged; the value holds no `<`, `"` or raw newline and reads back as exactly the code |
| Diagrams.AttributeFileAsWritten | modules/llm_functions.py:1186-1203 | as written, the fixed text comes through unchanged and the value holds no `"` or raw newline |
| Diagrams.MermaidFile | modules/llm_functions.py:1238 | the name is `snowflake_architecture_`, the company part with no dot or space, and `.mmd` |
| Diagrams.DrawioFile | modules/llm_functions.py:1239 | the name is `snowflake_architecture_`, the company part with no dot or space, and `.drawio` |
| Sales.Answers | modules/sales_functions.py:344 | the answered questions are never more than the questions |
| Sales.AnswersSpec | modules/sales_functions.py:344-345 | every kept question is an answered question of the category, and none is kept exactly when none is answered |
| Sales.AnswersOf | modules/sales_functions.py:344 | the filtering loop keeps exactly the answered questions, in order |
| Sales.QaBlock | modules/sales_functions.py:347-350 | each answered question contributes three lines |
| Sales.Header | modules/sales_functions.py:346 | a category header is recognisable as a header line |
| Sales.Section | modules/sales_functions.py:343-350 | a category that contributes lines starts with its header |
| Sales.NotesParts | modules/sales_functions.py:342-350 | the notes, when there are any, start with a category header |
| Sales.CategoriesNoteLists | modules/sales_functions.py:310-340 | every category of an input that does not raise is readable by the rendering |
| Sales.InBucketListed | modules/sales_functions.py:318-336 | grouping a list keeps only readable dictionary questions |
| Sales.PrepareDiscoveryNotes | modules/sales_functions.py:302-352 | the loops over categories and answered questions produce the notes `DiscoveryNotes` describes |
| Sales.SectionLines | modules/sales_functions.py:343-350 | a category adds its header and its answered questions' lines, or nothing when none is answered |
| Sales.QaBlockOf | modules/sales_functions.py:347-350 | the loop appends the question, answer and blank line of each answered question, in order |
| Sales.QaBlockSnoc | modules/sales_functions.py:347-350 | one more answered question appends exactly its three lines |
| Sales.JoinStartsWithFirst | modules/sales_functions.py:352 | joined notes begin with their first line |
| Sales.SectionEmpty | modules/sales_functions.py:343-346 | a category contributes no lines exactly when it holds no answered question |
| Sales.NotesPartsEmpty | modules/sales_functions.py:342-350 | the categories contribute no lines exactly when none holds an answered question |
| Sales.NoneAnsweredIff | modules/sales_functions.py:342-345 | the running "nothing answered yet" flag is the per-category statement |
| Sales.NotesBlankIff | modules/sales_functions.py:302-352 | the notes are blank exactly when no category holds an answered question |
| Sales.HeaderNotBlank | modules/sales_functions.py:346 | notes that start with a category header are never blank (also line 352) |
| Sales.ListNotesBlankIff | modules/sales_functions.py:310-352 | for a list of questions the notes are blank exactly when no question of the list is answered |
| Sales.GroupsUnanswered | modules/sales_functions.py:310-337 | grouping a list neither hides nor invents an answered question |
| Sales.GroupHoldsAnswered | modules/sales_functions.py:318-336 | an answered dictionary question lands in some group |
| Sales.FirstNamed | modules/sales_functions.py:182-186 | the search finds the first person with the name, compared lower-cased, and nobody before it has the name |
| Sales.PersonData | modules/sales_functions.py:168-175 | the stored record carries the researched name |
| Sales.PerformPeopleResearch | modules/sales_functions.py:162-198 | a falsy reply changes nothing and returns nothing; otherwise the record replaces the first person of the same name or is appended, and is returned |
| Sales.FindPerson | modules/sales_functions.py:182-186 | the loop stops at the first person of that name, -1 when there is none |
| Sales.UpsertedSpec | modules/sales_functions.py:177-193 | the list grows by one exactly when nobody had the name, the person is found under the name afterwards, and everybody else keeps their place |
| Sales.UpsertTwice | modules/sales_functions.py:177-193 | researching the same person twice keeps only the second record, in the first one's place |
| Sales.UpsertKeepsNamesDistinct | modules/sales_functions.py:177-193 | a research list without repeated names never gains one |
| Sales.ExtendedSpec | modules/sales_functions.py:134-137 | extending a category keeps its questions followed by the new ones, leaves every other category alone, adds a new category last, and keeps keys distinct (also lines 154-157) |
| Sales.ExtendCategory | modules/sales_functions.py:134-137 | no new questions change nothing; otherwise the store holds the extended questions (also lines 154-157) |
| Sales.AddNewQuestionsToCategory | modules/sales_functions.py:119-140 | the generated questions are exactly the reply's new questions and are appended to the category; none change nothing (also modules/llm_functions.py:348-386) |
| Sales.Texts | modules/sales_functions.py:122 | one text per existing question |
| Sales.AddNewQuestionsAsWritten | modules/sales_functions.py:122-132 | as written, a category whose questions have string texts raises exactly when it already holds questions, and a raise changes nothing (also modules/llm_functions.py:350) |
| Sales.AddInitiativeQuestionsAsWritten | modules/sales_functions.py:147-152 | as written the call always raises, since one argument is missing, and the store is left as it was (also modules/llm_functions.py:261) |
| Sales.AddInitiativeQuestions | modules/sales_functions.py:142-160 | the questions picked out of the reply (at most five for a list) are appended to the initiative's category; none change nothing (also modules/llm_functions.py:290-304) |
| SalesReport.Picked | modules/sales_functions.py:372-383 | the preferred key of a dictionary wins, otherwise its first entry; a non-empty list gives its first item; anything else is taken as it is (also lines 409-420) |
| SalesReport.Email | modules/sales_functions.py:390-399 | a built email has exactly the given subject and body |
| SalesReport.StoredEmail | modules/sales_functions.py:385-399 | the kept email always has a subject and a body |
| SalesReport.StoredEmailSpec | modules/sales_functions.py:368-399 | a proper picked email is kept as is, a string becomes the body under the plain follow-up subject, anything else gives the fallback email naming the company; `email_1` is preferred to every other key |
| SalesReport.FirstString | modules/sales_functions.py:430-433 | the first string value of a dictionary, none exactly when it holds no string |
| SalesReport.StoredLinkedInSpec | modules/sales_functions.py:405-438 | a picked dictionary's body is kept (an `opening` never is), else its first string value, the key left alone when there is none; a string is kept; anything else gives the fallback naming the company |
| SalesReport.ContentTypeSelects | modules/sales_functions.py:364 | "email" changes only the email, "linkedin" only the LinkedIn message, and an unknown type nothing; no other key ever changes (also line 401) |
| SalesReport.GenerateOutreachContent | modules/sales_functions.py:354-438 | blank discovery notes warn and change nothing; otherwise the email part and then the LinkedIn part are applied |
| SalesReport.StoreEmail | modules/sales_functions.py:364-399 | the store after the email part |
| SalesReport.StoreLinkedIn | modules/sales_functions.py:401-438 | the store after the LinkedIn part |
| SalesReport.AnsweredAtMostTotal | modules/sales_functions.py:519-523 | there are never more answered questions than questions |
| SalesReport.AllAnsweredIff | modules/sales_functions.py:519-523 | the answered count reaches the question count exactly when every category is fully answered |
| SalesReport.FullWhenCountsMeet | modules/sales_functions.py:519-523 | equal counts mean every category is fully answered |
| SalesReport.CountsMeetWhenFull | modules/sales_functions.py:519-523 | fully answered categories give equal counts |
| SalesReport.CompletionRateBounds | modules/sales_functions.py:536 | the completion rate lies between 0 and 100, is 100 exactly when there are questions and all are answered, and is 0 without questions |
| SalesReport.Summary | modules/sales_functions.py:513-542 | the summary never counts more answered than total questions, and its rate lies between 0 and 100 (0 without questions); it has a roadmap exactly when the frame has a row: a non-empty row list, or columns whose first column has a cell |
| SalesReport.SummaryRoadmapAgrees | modules/sales_functions.py:527 | the summary's roadmap flag equals the state manager's `has_roadmap_data` on the same store (also shared/state_manager.py:155) |
| SalesReport.SummaryComplete | modules/sales_functions.py:513-542 | the rate is 100 exactly when there is a question and every category is fully answered |
| AutoPopulate.AnswersSnoc | modules/sales_functions.py:222 | one more element adds to the answered questions exactly when it is answered |
| AutoPopulate.AnswersAppend | modules/sales_functions.py:222-223 | counting two lists one after the other adds their counts |
| AutoPopulate.BucketsCount | modules/llm_functions.py:440-467 | the three buckets of a list hold all of its answered questions between them |
| AutoPopulate.BucketStep | modules/llm_functions.py:440-467 | one more element adds to a bucket's count only when it is an answered question of that bucket |
| AutoPopulate.FilledKeepsAnswers | modules/llm_functions.py:521-527 | merging a reply into a category never loses an answered question |
| AutoPopulate.FilledWithoutReply | modules/llm_functions.py:520-521 | without a reply the merge changes nothing |
| AutoPopulate.ListsTotalMonotone | modules/sales_functions.py:519-523 | category lists that each hold at least as many answers hold at least as many in total |
| AutoPopulate.ListsTotalSame | modules/sales_functions.py:519-523 | equal category lists give equal totals |
| AutoPopulate.AutofillKeepsAnswers | modules/llm_functions.py:426-549 | a merge that does not raise returns at least as many answered questions as its input |
| AutoPopulate.PointwiseAnswers | modules/sales_functions.py:222 | a list whose questions stay answered position by position holds at least as many answered questions |
| AutoPopulate.RaisedKeepsAnswers | modules/llm_functions.py:521-531 | a merge that raised leaves the caller's collection with at least as many answered questions as before |
| AutoPopulate.AfterFillUpToKeepsAnswers | modules/llm_functions.py:521-531 | a question list merged in place up to a raise loses no answered question |
| AutoPopulate.MergedUpToKeepsAnswers | modules/llm_functions.py:480-537 | category lists merged up to a raise hold at least as many answered questions in total |
| AutoPopulate.FilledUpToKeepsAnswers | modules/llm_functions.py:525-531 | a category merged as far as some question loses no answered question |
| AutoPopulate.AutofillWithoutRepliesGainsNothing | modules/llm_functions.py:426-549 | with no usable reply the merge never raises, and its result holds exactly as many answered questions as its input |
| AutoPopulate.CallerViewAfter | modules/sales_functions.py:223 | what the caller's variable shows after the call can still be iterated (also lines 241 and 252) |
| AutoPopulate.DictCountsNothing | modules/sales_functions.py:222-223 | iterating a dictionary of categories yields its keys, none of which counts as answered |
| AutoPopulate.GainedAsWrittenIsZero | modules/sales_functions.py:222-224 | as written, every merge is credited with no answer at all (also lines 240-242 and 251-253) |
| AutoPopulate.BlankCategoryMerged | modules/llm_functions.py:519-527 | a blank one-question category merged with a reply numbering its answer comes back answered |
| AutoPopulate.GainedAsWrittenExample | modules/sales_functions.py:217-224 | a merge that fills a blank question is credited 0 as written but gains 1 |
| AutoPopulate.MergedCategoryTotal | modules/llm_functions.py:519-549 | that merge's result holds one answered question |
| AutoPopulate.NoneAnswerUnreplied | modules/llm_functions.py:524-529 | a category whose question holds `None` as its answer, with a reply that answers nothing, is merged without raising |
| AutoPopulate.NoneAnswerReplied | modules/llm_functions.py:524-529 | the same category with a reply that answers its question raises |
| AutoPopulate.NoneAnswerPopulated | modules/sales_functions.py:200-261 | on a store holding only notes and that category, with a reply that answers nothing, the operation ends with the acknowledgement |
| AutoPopulate.InitiativeKey | modules/sales_functions.py:232 | every initiative key starts with `initiative_questions_` |
| AutoPopulate.InitiativeKeysDistinct | modules/sales_functions.py:231-233 | different initiatives keep their questions under different keys |
| AutoPopulate.FillStored | modules/sales_functions.py:233-242 | one section's pass changes only its key; a pass that neither stores nor raises changes nothing and gains nothing; a stored result raises exactly when it is a list holding a dictionary whose `answer` is not a string (the count's `.strip()`); the pass raises without storing exactly when the merge itself raises; a pass that raises gains nothing |
| AutoPopulate.FillInitiatives | modules/sales_functions.py:231-242 | the passes over the first `n` initiatives leave every initiative key from the `n`-th on as it was, present or absent |
| AutoPopulate.InitiativePass | modules/sales_functions.py:231-242 | the passes up to and including initiative `i` leave every later initiative key as it was |
| AutoPopulate.FillInitiativesFrame | modules/sales_functions.py:231-242 | the initiative passes keep the store's keys and change nothing outside the initiative questions |
| AutoPopulate.NoticeFor | modules/sales_functions.py:255-261 | success is reported exactly when answers were gained, with their number (the corrected `Gained` count) |
| AutoPopulate.MainPass | modules/sales_functions.py:216-224 | the main pass changes only the main questions |
| AutoPopulate.InitiativesPass | modules/sales_functions.py:226-242 | the initiative passes change only initiative keys |
| AutoPopulate.CustomPass | modules/sales_functions.py:244-253 | the custom pass changes only the custom questions |
| AutoPopulate.Sections | modules/sales_functions.py:213-261 | merging the three kinds of section changes only the question collections; when the main pass raises, the outcome is the raise and the store is exactly as the main pass left it; answers are counted with the corrected `Gained` count |
| AutoPopulate.Populate | modules/sales_functions.py:200-261 | blank notes or no questions leave the store alone with the matching warning; any other notice comes from the corrected `Gained` count |
| AutoPopulate.FillSection | modules/sales_functions.py:233-242 | one section's pass on the store is the pass `FillStored` describes, including whether it stored, whether the merge raised and what it left in the store, and whether the count raised |
| AutoPopulate.FillInitiativeSections | modules/sales_functions.py:227-242 | the loop over the suggested initiatives performs their passes in order and stops at the first pass that raises |
| AutoPopulate.MergeSections | modules/sales_functions.py:213-261 | the three kinds of section on the store give `Sections`'s store and notice, with the corrected `Gained` count, a raise leaving the sections after it untouched |
| AutoPopulate.AutoPopulateAnswers | modules/sales_functions.py:200-261 | the operation on the store gives `Populate`'s store and notice, with the corrected `Gained` count |
| AutoPopulate.KeepsAnswersTrans | modules/sales_functions.py:213-253 | keeping every answer across two steps keeps it across both |
| AutoPopulate.FillStoredKeepsAnswers | modules/sales_functions.py:233-242 | a section's pass never loses an answer |
| AutoPopulate.FillInitiativesKeepAnswers | modules/sales_functions.py:231-242 | the initiative passes never lose an answer |
| AutoPopulate.StepKeepsAnswers | modules/sales_functions.py:213-253 | a further pass keeps every answer kept so far |
| AutoPopulate.PopulateKeepsAnswers | modules/sales_functions.py:200-261 | the operation never loses an answered question from any stored collection, and changes only the question collections |
| AutoPopulate.FillStoredSilent | modules/sales_functions.py:233-242 | a pass whose replies hold no usable answer gains nothing |
| AutoPopulate.FillInitiativesSilent | modules/sales_functions.py:231-242 | initiative passes with silent replies gain nothing |
| AutoPopulate.SilentRepliesNeverSucceed | modules/sales_functions.py:255-261 | with no usable reply anywhere the operation never reports success |
| AutoPopulate.InBucketHolds | modules/llm_functions.py:440-467 | a question that is a dictionary lands in the bucket its classification names |
| AutoPopulate.CallerViewCountable | modules/sales_functions.py:223 | when the merge result can be counted, so can what the caller's variable shows (also lines 241 and 252) |
| AutoPopulate.InitiativeReadable | modules/sales_functions.py:231-233 | an initiative's questions are still as stored when its turn comes, so its pass can run |
| AutoPopulate.InitiativeStep | modules/sales_functions.py:231-242 | when the passes before an initiative did not raise, its questions are readable and the passes up to it are those passes followed by its own |
| AutoPopulate.InitiativeKeepsAnswers | modules/sales_functions.py:231-242 | an initiative's pass keeps every answer that the passes before it kept |
| AutoPopulate.RaisedStays | modules/sales_functions.py:231-242 | once a pass has raised, the remaining initiatives change nothing |
| DiscoveryApp.FirstWithId | discovery_app_streamlit.py:316-319 | the scan stops at the first question carrying the id, and none before it carries it |
| DiscoveryApp.FirstCategoryWithId | discovery_app_streamlit.py:315-319 | the first category holding the id, and no earlier category holds it |
| DiscoveryApp.Flip | discovery_app_streamlit.py:318 | the mark afterwards is the negation of the mark before |
| DiscoveryApp.ToggleFavorite | discovery_app_streamlit.py:314-319 | only the first question with the id, in the first category holding one, has its mark flipped; the store otherwise is unchanged |
| DiscoveryApp.FlipTwice | discovery_app_streamlit.py:318 | flipping keeps a question's id, and flipping back restores it |
| DiscoveryApp.FirstWithIdAgree | discovery_app_streamlit.py:316-317 | lists that agree up to a common match find it at the same place |
| DiscoveryApp.FirstCategoryAgree | discovery_app_streamlit.py:315-317 | categories that agree up to a common match find it in the same category |
| DiscoveryApp.FlipFirstTwice | discovery_app_streamlit.py:316-319 | within a list, flipping keeps it well formed, keeps the match in place, and flipping again restores the list |
| DiscoveryApp.ReplaceCategory | discovery_app_streamlit.py:314-323 | replacing a category's list by a well-formed one keeps the question store well formed |
| DiscoveryApp.ToggledKeepsStore | discovery_app_streamlit.py:314-319 | toggling keeps the question store well formed, with boolean marks |
| DiscoveryApp.ToggleTwice | discovery_app_streamlit.py:314-319 | toggling the same id twice gives back the original questions |
| DiscoveryApp.ToggleTwiceAt | discovery_app_streamlit.py:314-319 | the same, when the id is found in a given category |
| DiscoveryApp.ToggledFirst | discovery_app_streamlit.py:314-319 | after a toggle the id is still first found in the same category, whose list is the flipped one |
| DiscoveryApp.Kept | discovery_app_streamlit.py:323 | the filtered list holds exactly the questions without the id |
| DiscoveryApp.KeptAppend | discovery_app_streamlit.py:323 | filtering keeps the relative order |
| DiscoveryApp.KeptUnmatched | discovery_app_streamlit.py:323 | a list without the id is kept whole |
| DiscoveryApp.Deleted | discovery_app_streamlit.py:322-323 | every category keeps its name and holds its filtered list |
| DiscoveryApp.DeleteQuestion | discovery_app_streamlit.py:321-323 | the store afterwards holds every category with the id's questions filtered out |
| DiscoveryApp.KeptTwice | discovery_app_streamlit.py:323 | filtering keeps a list well formed, and filtering again changes nothing |
| DiscoveryApp.DeleteTwice | discovery_app_streamlit.py:321-323 | deleting keeps the store well formed, and deleting again changes nothing |
| DiscoveryApp.DeleteRemoves | discovery_app_streamlit.py:321-323 | after deleting no question carries the id, and every other question stays in its category |
| DiscoveryApp.ClearSession | discovery_app_streamlit.py:325-333 | the four named keys and every widget key are removed, nothing else |
| DiscoveryApp.ClearedInTwoSteps | discovery_app_streamlit.py:325-333 | removing the named keys and then the widget keys is removing both at once |
| DiscoveryApp.DeleteWidgetKeys | discovery_app_streamlit.py:331-333 | the loop over the listed keys removes exactly the widget keys |
| DiscoveryApp.ClearSessionSpec | discovery_app_streamlit.py:325-333 | clearing removes every named and widget key, keeps every other entry as it was, and clearing again changes nothing |
| DiscoveryApp.SyncedList | discovery_app_streamlit.py:396-399 | each question of a list is synced on its own, the length kept |
| DiscoveryApp.SyncedCategories | discovery_app_streamlit.py:395-399 | each category keeps its name and holds its synced list |
| DiscoveryApp.SyncedFields | discovery_app_streamlit.py:397-399 | a question whose widget exists takes the widget's value as answer; nothing else and no other question changes; syncing twice is syncing once |
| DiscoveryApp.AnswerKeyNotQuestions | discovery_app_streamlit.py:397 | an answer widget key never names the question dictionary |
| DiscoveryApp.SyncList | discovery_app_streamlit.py:396-399 | the inner loop syncs each question of a category |
| DiscoveryApp.SyncIgnoresQuestions | discovery_app_streamlit.py:395-399 | updating the questions mid-loop does not change what the widgets read |
| DiscoveryApp.SyncAnswers | discovery_app_streamlit.py:394-399 | the store afterwards holds every category synced from the widgets as they were before the loop |
| DiscoveryApp.SyncedListTwice | discovery_app_streamlit.py:396-399 | syncing keeps a list well formed, and syncing again changes nothing |
| DiscoveryApp.SyncTwice | discovery_app_streamlit.py:394-399 | syncing keeps the store well formed, and syncing twice is syncing once |
| DiscoveryApp.AppCommand | discovery_app_streamlit.py:86-87 | the command wraps a body that is well escaped and reads back as exactly the prompt (also lines 219-220) |
| DiscoveryApp.AppCommandIsShared | discovery_app_streamlit.py:86-87 | it is the shared completion command for the same model, plus a semicolon (also modules/llm_functions.py:16-17) |
| DiscoveryApp.ObjectSlice | discovery_app_streamlit.py:95-99 | a slice exists exactly when both braces occur; it runs from the first `{` to the last `}`, and is empty when they are reversed (also lines 228-232) |
| DiscoveryApp.ParsedReply | discovery_app_streamlit.py:93-100 | no row or an empty cell gives no decoded value (also lines 226-233) |
| DiscoveryApp.AppQuestionFields | discovery_app_streamlit.py:104 | a new question is well formed, unanswered and not a favourite (also line 238) |
| DiscoveryApp.Stamped | discovery_app_streamlit.py:103-105 | one new question per item, in order, the i-th under the i-th fresh id and carrying the item as its text (also lines 237-239) |
| DiscoveryApp.WidthItems | discovery_app_streamlit.py:102-105 | the number of questions a category gives is the number of items iterating it yields |
| DiscoveryApp.Offsets | discovery_app_streamlit.py:102-105 | one first id number per category and one after them |
| DiscoveryApp.GenerateDiscoveryQuestions | discovery_app_streamlit.py:55-116 | any failure gives `{}`; otherwise every decoded category becomes a list of new questions under the same key, in the reply's order |
| DiscoveryApp.UniqueDecoded | discovery_app_streamlit.py:100 | a decoded reply has distinct category keys |
| DiscoveryApp.StampCategories | discovery_app_streamlit.py:101-105 | the loop over the decoded categories computes `Generated` |
| DiscoveryApp.GeneratedStep | discovery_app_streamlit.py:102-105 | each category is appended under its own key |
| DiscoveryApp.OffsetGrows | discovery_app_streamlit.py:102-105 | earlier categories use id numbers below a later category's first |
| DiscoveryApp.IdNumbersDistinct | discovery_app_streamlit.py:102-105 | different item positions get different id numbers |
| DiscoveryApp.DiscoveryQuestionsFresh | discovery_app_streamlit.py:101-106 | the result keeps the reply's keys in order and every question in it is new |
| DiscoveryApp.DiscoveryQuestionIdsDistinct | discovery_app_streamlit.py:102-105 | with distinct fresh ids no two generated questions share an id |
| DiscoveryApp.GeneratedId | discovery_app_streamlit.py:104 | each generated question carries the id number of its position |
| DiscoveryApp.MoreQuestions | discovery_app_streamlit.py:184-250 | every question made is new and carries the next fresh id |
| DiscoveryApp.MoreQuestionsSpec | discovery_app_streamlit.py:233-239 | a decoded object without `new_questions` gives no questions; with a list it gives one question per item, carrying the item as its text |
| DiscoveryApp.CompanyLabel | discovery_app_streamlit.py:448 | with the host being the website without `https://` and `www.`, the label is the capitalised longest dot-free prefix of the host: it holds no dot, is never longer than the host or the website, and is followed in the host by a dot whenever it is shorter |
| Experts.SkillPiece | modules/expert_search.py:294 | a piece never grows and neither starts nor ends with a quote once stripped |
| Experts.ParseSkillArray | modules/expert_search.py:281-300 | a falsy cell gives no skills, a list is returned as it is, any other non-string cell gives its one `str`, and a string cell gives only strings |
| Experts.ParseSkillStringShape | modules/expert_search.py:292-296 | without a comma the cleaned cell is one skill, or none when empty; with commas there is one stripped skill per piece, the pieces hold no comma and join back into the cleaned cell |
| Experts.Matches | modules/expert_search.py:227-229 | never more terms are found than are searched |
| Experts.Score | modules/expert_search.py:231-233 | the score lies between 20 and 100, is 100 when every term is found, and is otherwise the whole percentage of terms found, raised to 20 |
| Experts.ShareAtMost100 | modules/expert_search.py:232 | the share of terms found never exceeds 100 percent, and is exactly 100 when all are found |
| Experts.Strs | modules/expert_search.py:227-228 | the terms' texts, one per term |
| Experts.CalculateSkillRelevance | modules/expert_search.py:195-236 | the result lies between 20 and 100; it is 50 when a term is not a string, and otherwise the score of the terms found in the row's upper-cased skill text |
| Experts.MatchesStep | modules/expert_search.py:227-229 | counting one more string term adds one exactly when its upper-cased form occurs in the text |
| Experts.JoinSkillText | modules/expert_search.py:202-224 | the searched text is the row's truthy skill, specialty (twice) and certification cells, upper-cased, in column order |
| Experts.PrefixMatches | modules/expert_search.py:227-229 | the count over the first terms depends on those terms only |
| Experts.Cleaned | modules/expert_search.py:273-274 | every kept skill is non-empty and stripped; every non-blank item's stripped form is kept, and nothing else is |
| Experts.ExtractFreestyleSkills | modules/expert_search.py:238-279 | every skill of every bucket is non-empty and has no surrounding white space |
| Experts.ExtractSeSkills | modules/expert_search.py:311-344 | a falsy skill, medium or specialty cell gives an empty list, and the certifications are the external then internal ones |
| Experts.SeSkillsAgree | modules/expert_search.py:238-344 | the directory's specialties and certifications, cleaned and de-duplicated, are exactly the Freestyle buckets |
| Experts.SeSkillsWithin | modules/expert_search.py:238-344 | the directory's self-assessed high and medium skills, cleaned, lie within the Freestyle high and medium buckets |
| Experts.Put | modules/expert_search.py:82 | assigning an entry keeps every id once |
| Experts.ExpertIndex | modules/expert_search.py:159 | the position found holds the id, and -1 means no entry holds it |
| Experts.FindIn | modules/expert_search.py:359-360 | an id is found exactly when it is a key, and the entry found is in the dictionary |
| Experts.UniqueIndex | modules/expert_search.py:159 | with ids unique, the entry at a position is the one found for its id |
| Experts.PutFinds | modules/expert_search.py:82 | after `d[k] = x`, looking up `k` gives `x` |
| Experts.PutKeepsOthers | modules/expert_search.py:82 | after `d[k] = x`, every other id keeps its entry |
| Experts.OtherIndex | modules/expert_search.py:82 | replacing one entry does not move any other id |
| Experts.PutKeys | modules/expert_search.py:82 | `d[k] = x` adds `k` to the keys and nothing else |
| Experts.CleanTerms | modules/expert_search.py:18 | the cleaned terms hold only word characters and white space, and every such character of the lower-cased input as often as it occurs there |
| Experts.Keep | modules/expert_search.py:18 | the kept characters are no more than those scanned, and all are word characters or white space |
| Experts.KeepCounts | modules/expert_search.py:18 | removing characters keeps the count of every word or space character |
| Experts.KeepAppend | modules/expert_search.py:18 | filtering a concatenation filters each part in order |
| Experts.CleanTermsAppend | modules/expert_search.py:18 | cleaning works character by character in order: cleaning a concatenation concatenates the cleaned parts |
| Experts.CommaList | modules/expert_search.py:71-80 | no listed skill or specialty is empty |
| Experts.NonBlank | modules/expert_search.py:74 | the kept pieces are non-empty and no more than the pieces |
| Experts.FreestyleParams | modules/expert_search.py:13-21 | the query is issued exactly when the cleaned, stripped terms have at least two characters, and then with the cleaned terms in all twelve placeholders (also lines 53-56) |
| Experts.SearchFreestyleExperts | modules/expert_search.py:11-96 | no query and no experts for short or empty terms; otherwise one entry per email, the last row for an email winning |
| Experts.FreestyleExperts | modules/expert_search.py:64-92 | the experts found are keyed by distinct emails |
| Experts.FreestylePairs | modules/expert_search.py:65-90 | one entry per row, keyed by the row's email |
| Experts.PutAll | modules/expert_search.py:64-90 | the dictionary built holds every id once |
| Experts.LastPutWins | modules/expert_search.py:82-90 | an id ends up holding the last entry assigned to it |
| Experts.FreestyleLastRowWins | modules/expert_search.py:65-90 | each email's entry is built from the last row with that email |
| Experts.Dedup | modules/expert_search.py:149 | the kept rows have exactly the ids of the input, each once, and are input rows |
| Experts.IdsAppend | modules/expert_search.py:149 | one more row adds its id to the ids |
| Experts.AddOpportunity | modules/expert_search.py:159-178 | the owner's entry afterwards ends with this row's opportunity |
| Experts.Owners | modules/expert_search.py:152-182 | the experts grouped from the rows are keyed by distinct emails |
| Experts.SalesforceScore | modules/expert_search.py:186 | the score is at most 100, and at least 10 for an expert with an opportunity |
| Experts.Scored | modules/expert_search.py:185-187 | scoring keeps every expert and its position and changes only the relevance, to the expert's score |
| Experts.SearchSalesforceExperts | modules/expert_search.py:99-193 | no experts for falsy terms, nor for terms that make the search raise (a number, a boolean, a list holding a non-string), which the handler turns into `{}`; otherwise the rows of every query, de-duplicated, grouped by owner and scored |
| Experts.CollectRows | modules/expert_search.py:114-146 | the rows gathered are those of one query per term of at least two characters, in term order |
| Experts.GroupOwners | modules/expert_search.py:152-182 | the grouping loop builds the owners' entries from the rows in order |
| Experts.ScoreAll | modules/expert_search.py:185-187 | the scoring loop scores every expert in place |
| Experts.OwnersShape | modules/expert_search.py:153-170 | every Salesforce expert has a non-empty email and at least one opportunity |
| Experts.SalesforceScoreBounds | modules/expert_search.py:152-189 | the experts are keyed once each by non-empty emails and score between 10 and 100 |
| Experts.CompetitiveOwners | modules/expert_search.py:471-490 | the experts are keyed by distinct emails and each has at least one opportunity |
| Experts.AddCompetitive | modules/expert_search.py:475-490 | a new owner is appended, a known owner keeps the number of experts |
| Experts.CompetitiveIndex | modules/expert_search.py:475 | the position found holds the email, and -1 means none does |
| Experts.CompetitiveScore | modules/expert_search.py:494 | an expert with an opportunity scores between 20 and 100 |
| Experts.SearchCompetitiveExperience | modules/expert_search.py:436-500 | nothing for an empty competitor; otherwise the query's rows, with the competitor pattern in both placeholders, grouped by owner and scored |
| Experts.GroupCompetitive | modules/expert_search.py:471-490 | the grouping loop builds the owners' entries from the rows in order |
| Experts.ScoreCompetitive | modules/expert_search.py:493-494 | the scoring loop scores every expert in place |
| Experts.ScoredCompetitive | modules/expert_search.py:493-494 | scoring keeps every expert and changes only its relevance, to its score |
| Experts.CompetitiveScoreBounds | modules/expert_search.py:470-496 | each competitive expert appears once and scores between 20 and 100 |
| Experts.Combine | modules/expert_search.py:359-370 | a new id takes the Salesforce entry; a shared id keeps its name and email, appends the opportunities, adds the industries and takes the higher relevance |
| Experts.MergeOne | modules/expert_search.py:359-370 | merging one entry keeps every id once |
| Experts.Merged | modules/expert_search.py:357-370 | the merge keeps every id once |
| Experts.MergedUntouched | modules/expert_search.py:357-370 | an id no Salesforce entry carries keeps its Freestyle entry, or stays absent |
| Experts.MergedCombines | modules/expert_search.py:359-368 | each Salesforce id holds its entry combined with the Freestyle entry for the id, if any |
| Experts.MergedKeys | modules/expert_search.py:357-370 | the merge holds exactly the ids of both searches |
| Experts.OverlapEmptiesAsWritten | modules/expert_search.py:359-381 | as written, any id found by both searches makes the whole result empty |
| Experts.AsWrittenAgrees | modules/expert_search.py:359-370 | where the merge as written does not fail it agrees with the corrected merge |
| Experts.DisjointAsWrittenSucceeds | modules/expert_search.py:359-370 | with no shared ids the merge as written succeeds with the corrected result |
| Experts.SortByRelevance | modules/expert_search.py:373-375 | sorting keeps the number of experts |
| Experts.InsertByRelevance | modules/expert_search.py:373-375 | inserting adds exactly one entry |
| Experts.InsertKeepsEntries | modules/expert_search.py:373-375 | inserting adds the entry to the others and loses none |
| Experts.InsertStable | modules/expert_search.py:373-375 | inserting places the entry first among those of equal relevance and keeps their order |
| Experts.InsertDescending | modules/expert_search.py:373-375 | inserting into a list ordered by falling relevance keeps it ordered |
| Experts.SortByRelevanceSpec | modules/expert_search.py:373-375 | the result is ordered by falling relevance, is a permutation of the input, and keeps input order among equal relevances |
| Experts.FindExpertsForCompany | modules/expert_search.py:346-381 | nothing for empty terms; otherwise both searches merged by id and sorted by relevance |
| Experts.MergeExperts | modules/expert_search.py:357-370 | the merge loop computes the corrected merge of the two searches |
| Experts.FreestyleExpert | modules/expert_search.py:82-90 | a Freestyle entry has the cleaned skill and specialty lists, the row's college and employers, and no opportunities or industries |
| Experts.SearchTerms | modules/expert_search.py:106-110 | a string gives one stripped term per comma-separated piece, a list its own strings and a dictionary its keys |
| SessionManagement.ClearSessionData | modules/session_management.py:11-25 | success is reported, every listed key is gone, and every other key keeps its value |
| SessionManagement.CompanyInfo | modules/session_management.py:29-38 | the result is a dictionary: a dictionary as it is, a string that does not parse as a bare website, anything else as `{}` |
| SessionManagement.WebsiteStem | modules/session_management.py:44 | the stem is no longer than the website and holds no dot |
| SessionManagement.TitleKeepsCased | modules/session_management.py:44 | title-casing keeps every character cased exactly when it was |
| SessionManagement.TitleFromKeepsCased | modules/session_management.py:44 | title-casing from any starting state keeps which characters are cased |
| SessionManagement.CompanyPart | modules/session_management.py:40-46 | a truthy name is used; neither name nor website gives "Unknown Company"; it fails exactly when only a non-string website is truthy |
| SessionManagement.SessionName | modules/session_management.py:27-61 | a name exists exactly when its company part does, starts with it, and ends with the timestamp in parentheses |
| SessionManagement.BareWebsiteName | modules/session_management.py:29-44 | a bare website that is not JSON names the session after its stem, which holds no dot |
| SessionManagement.DictField | modules/session_management.py:124-130 | a saved dictionary field is always a dictionary |
| SessionManagement.ListField | modules/session_management.py:132-142 | a saved list field is always a list |
| SessionManagement.Records | modules/session_management.py:103-108 | the saved roadmap is a list: a frame held as rows saves those rows, one held as columns saves one record per row naming every column's cell in that row, and anything else saves `[]` |
| SessionManagement.RecordsStable | modules/session_management.py:103-108 | saving a restored roadmap saves the same records, and each record of a column frame names exactly its columns |
| SessionManagement.SavedKeysDistinct | modules/session_management.py:144-157 | the twelve saved keys are distinct, and none is `roadmap_df` or the session id |
| SessionManagement.FullState | modules/session_management.py:144-157 | the saved state is a dictionary with distinct keys, none of them `roadmap_df` or the session id; it holds the questions and the company as given and the roadmap's records |
| SessionManagement.SessionId | modules/session_management.py:84-87 | a truthy stored session id is kept |
| SessionManagement.WithSessionId | modules/session_management.py:84-87 | afterwards the store holds the id the save uses, and only a missing or falsy id was replaced |
| SessionManagement.SavedRow | modules/session_management.py:89-249 | a row is written exactly when the session can be named and every question's answer can be read; it carries the id, the saved questions, the full state, the roadmap records that state holds, the company's name and website, and the stored competitor, contact and user e-mail |
| SessionManagement.SaveCurrentSession | modules/session_management.py:63-255 | `True` exactly when a row is written; the store and the row are those of the save's specification |
| SessionManagement.WriteRow | modules/session_management.py:89-249 | naming, counting and building the row give the specified row |
| SessionManagement.SaveKeepsSessionId | modules/session_management.py:63-88 | a save changes the store at most by setting a missing or falsy session id; the row written carries the id the store then holds; without website and name nothing is saved |
| SessionManagement.SaveCounts | modules/session_management.py:94-101 | answered questions never exceed the total, the completion lies in [0, 100] and is 100 when all are answered, and no answers are counted exactly when no question is answered |
| SessionManagement.RowTotal | modules/session_management.py:286-298 | a missing cell, a non-string cell or text that does not parse counts 0 questions |
| SessionManagement.LengthSumOfLists | modules/session_management.py:292 | for lists of questions per category the summed lengths are the question total |
| SessionManagement.RowTotalCounts | modules/session_management.py:287-292 | a saved list counts its questions; saved categories count the questions of all categories |
| SessionManagement.WithTotal | modules/session_management.py:301 | the row gains its question total and keeps every other column |
| SessionManagement.GetSavedSessions | modules/session_management.py:257-307 | one listed row per row queried, in order, each with the question total of its saved questions |
| SessionManagement.Frame | modules/session_management.py:349 | building a frame succeeds exactly for rows or columns, and keeps them |
| SessionManagement.Assign | modules/session_management.py:346-353 | one restoring step sets the key to the value, a truthy roadmap also as `roadmap_df`, and touches nothing else; it fails exactly for a truthy roadmap that is no frame |
| SessionManagement.RestoreEntries | modules/session_management.py:346-353 | the restoring loop leaves the store and the success flag of the restore's specification |
| SessionManagement.RestoreOkIff | modules/session_management.py:346-353 | restoring succeeds exactly when every truthy saved roadmap is rows or columns |
| SessionManagement.RestoreOthers | modules/session_management.py:346-353 | a key no saved entry names keeps its presence and value |
| SessionManagement.RestoreSaved | modules/session_management.py:346-353 | after a successful restore every saved key holds its saved value, and a truthy saved roadmap is also the `roadmap_df` |
| SessionManagement.RestoreOthersDf | modules/session_management.py:346-353 | without a saved roadmap, `roadmap_df` keeps its presence and value |
| SessionManagement.Load | modules/session_management.py:318-322 | no row means `False` and an unchanged store |
| SessionManagement.LoadSessionData | modules/session_management.py:309-379 | the store and the result are those of the load's specification |
| SessionManagement.LoadFailsEarly | modules/session_management.py:318-331 | no row, no saved state or saved text that does not parse fails before anything is cleared |
| SessionManagement.LoadNonDictionaryClears | modules/session_management.py:328-344 | a saved state that is neither text nor a dictionary fails after the session's keys were cleared |
| SessionManagement.LoadDictionary | modules/session_management.py:325-362 | a saved dictionary is restored with the loaded session id after clearing, and the load succeeds when restoring does and the answers can be counted |
| SessionManagement.LoadRestoresState | modules/session_management.py:309-375 | a saved dictionary with distinct keys, a list roadmap and readable answers loads successfully, restoring every entry and the session id |
| SessionManagement.SaveLoadRoundTrip | modules/session_management.py:63-375 | loading what a save wrote, into any store, succeeds and restores every saved field, the questions and the loaded session id |
| SessionManagement.SavedRowLoads | modules/session_management.py:144-375 | a written row's full state loads back with its questions and the loaded session id |
| SessionManagement.StartNewSession | modules/session_management.py:416-479 | the store, the row saved and the flags are those of the fresh start's specification |
| SessionManagement.StartKeepsOthers | modules/session_management.py:416-464 | a fresh start succeeds exactly when the company is a dictionary; then the listed keys are gone and every other key keeps its value, otherwise nothing changes |
| SessionManagement.StartKeysListed | modules/session_management.py:435-459 | the session id and the questions are among the keys a fresh start removes |
| SessionManagement.WithoutUpdate | modules/session_management.py:435-464 | a key set and then deleted leaves what deleting alone leaves |
| SessionManagement.StartSavesCompany | modules/session_management.py:420-429 | a session with a website is saved first, with its questions |
| SessionManagement.StartDropsQuestionsWithoutCompany | modules/session_management.py:420-470 | questions without a company are not saved, yet the saved message is shown and the questions are removed |
| SessionManagementV2.ClearSessionData | modules/session_management_v2.py:416-431 | success is reported, every listed key is gone, and every other key keeps its value |
| SessionManagementV2.CompatSessionName | modules/session_management_v2.py:501-520 | a name exists exactly when the first version's company part does, starts with it and ends with the date |
| SessionManagementV2.SaveCompanyName | modules/session_management_v2.py:268-272 | a truthy name wins, then a truthy account name; it fails exactly when only a non-string website is truthy |
| SessionManagementV2.SaveNameAgrees | modules/session_management_v2.py:268-274 | without an account name and with a string website, the save's name and the compatible name agree on the company whenever the stem or the name is non-empty (also lines 501-520) |
| SessionManagementV2.Then | modules/session_management_v2.py:256-414 | two parts in sequence succeed when both do, issue the writes of both, and stop after an exception |
| SessionManagementV2.RowsStuck | modules/session_management_v2.py:256-414 | once a loop has raised, later steps issue nothing |
| SessionManagementV2.NumberedIdsDistinct | modules/session_management_v2.py:317 | ids with one prefix and different numbers differ (also line 333) |
| SessionManagementV2.QuestionIdsDistinct | modules/session_management_v2.py:317 | the question ids, and the answer ids, of one session are distinct (also line 333) |
| SessionManagementV2.QuestionStep | modules/session_management_v2.py:316-341 | a question writes its row with its number, then an answer row exactly when its answer is not blank; a non-dictionary question or a non-string answer raises |
| SessionManagementV2.QuestionSteps | modules/session_management_v2.py:316 | one step per question |
| SessionManagementV2.RowCountsAppend | modules/session_management_v2.py:316-341 | the answer rows and question ids of two runs of writes add up |
| SessionManagementV2.StepCounts | modules/session_management_v2.py:316-341 | a question written without exception contributes its id and one answer row exactly when answered |
| SessionManagementV2.SingleRow | modules/session_management_v2.py:325-341 | one write counts as an answer row or a question id according to its kind |
| SessionManagementV2.RowsStep | modules/session_management_v2.py:316-341 | one more question written adds its id and, when answered, one answer row |
| SessionManagementV2.RowsSplit | modules/session_management_v2.py:316-341 | a loop that did not raise is the shorter loop followed by the last question's writes |
| SessionManagementV2.QuestionIdList | modules/session_management_v2.py:316-317 | one id per question |
| SessionManagementV2.QuestionIdListAt | modules/session_management_v2.py:317 | the i-th id is that of the i-th question |
| SessionManagementV2.QuestionIdsInOrder | modules/session_management_v2.py:316-329 | the question rows carry the numbered ids of the questions, in order |
| SessionManagementV2.AnswersStep | modules/session_management_v2.py:332 | one more answered question adds one to the answered count |
| SessionManagementV2.AnswerRowsCount | modules/session_management_v2.py:316-341 | the answer rows written are exactly as many as the answered questions |
| SessionManagementV2.WriteQuestions | modules/session_management_v2.py:316-341 | the question loop issues the writes of its specification |
| SessionManagementV2.ContentItems | modules/session_management_v2.py:344-361 | the items raise exactly when a stored roadmap is no frame; otherwise they start with the business case, competitive strategy and value hypothesis texts (empty when missing), then hold the roadmap, email and LinkedIn payloads each exactly when it is truthy, every later item a payload without text |
| SessionManagementV2.ContentTexts | modules/session_management_v2.py:344-348 | three text items, none with a payload and none of a payload type |
| SessionManagementV2.ContentPayloads | modules/session_management_v2.py:350-361 | each payload item is present exactly when its value is truthy, and every payload item has no text |
| SessionManagementV2.ContentStep | modules/session_management_v2.py:367-386 | an item raises exactly for a truthy non-string text, and writes one filled row under its content id exactly when its text is not blank or its payload is truthy |
| SessionManagementV2.ContentSteps | modules/session_management_v2.py:367 | one step per item |
| SessionManagementV2.ContentRowsFilled | modules/session_management_v2.py:367-386 | every content row written has a non-blank text or a truthy payload |
| SessionManagementV2.WriteContent | modules/session_management_v2.py:367-386 | the content loop issues the writes of its specification |
| SessionManagementV2.ContactStep | modules/session_management_v2.py:395-407 | a person writes one contact row with its numbered id exactly when it is a dictionary, and raises otherwise |
| SessionManagementV2.ContactSteps | modules/session_management_v2.py:395 | one step per person |
| SessionManagementV2.WriteContacts | modules/session_management_v2.py:395-407 | the contact loop issues the writes of its specification |
| SessionManagementV2.SaveCurrentSession | modules/session_management_v2.py:254-414 | the store, the writes and the result are those of the save's specification |
| SessionManagementV2.WriteParts | modules/session_management_v2.py:300-407 | the merge and the question, content and contact parts run in order, stopping at the first exception |
| SessionManagementV2.QuestionsStageSpec | modules/session_management_v2.py:309-341 | old question rows are deleted exactly when there are questions; a completed part gives the questions their numbered ids in order and writes one answer row per answered question |
| SessionManagementV2.QuestionRowsOnly | modules/session_management_v2.py:316-341 | the question loop writes only question and answer rows |
| SessionManagementV2.StepRowsOnly | modules/session_management_v2.py:316-341 | one question writes only its question row and answer row |
| SessionManagementV2.AnswerOf | modules/session_management_v2.py:179 | a missing answer is loaded as "", any other as it is |
| SessionManagementV2.QuestionOf | modules/session_management_v2.py:173-180 | a rebuilt question is a dictionary |
| SessionManagementV2.QuestionOfFields | modules/session_management_v2.py:173-180 | a rebuilt question's answer is the row's answer, a missing one as "", and its text is the row's |
| SessionManagementV2.QuestionsOf | modules/session_management_v2.py:170-181 | one rebuilt question per row, in the rows' order |
| SessionManagementV2.ContactOf | modules/session_management_v2.py:224-230 | a rebuilt contact is a dictionary |
| SessionManagementV2.ContactOfFields | modules/session_management_v2.py:224-230 | a rebuilt contact's name, title and type are its row's |
| SessionManagementV2.ContactsOf | modules/session_management_v2.py:222-231 | one rebuilt contact per row, in order |
| SessionManagementV2.FirstPrimary | modules/session_management_v2.py:236 | the position found is a 'primary' contact with none before it, and -1 means there is none |
| SessionManagementV2.Payload | modules/session_management_v2.py:196-218 | a payload is restored only from a truthy stored value, and a roadmap only as rows or columns |
| SessionManagementV2.ApplyContent | modules/session_management_v2.py:188-218 | a content row changes only the content keys |
| SessionManagementV2.RestoreContentOthers | modules/session_management_v2.py:186-218 | restoring content keeps every other key's presence and value |
| SessionManagementV2.CompanyOf | modules/session_management_v2.py:155-159 | the restored company is a dictionary |
| SessionManagementV2.CompanyOfFields | modules/session_management_v2.py:155-159 | the restored company's name and account name are the stored company name, and its website the stored website |
| SessionManagementV2.Header | modules/session_management_v2.py:152-167 | the session id and the company are set, a truthy contact name is set and a falsy one leaves the key as it was, and keys outside the session row are unchanged |
| SessionManagementV2.WithContacts | modules/session_management_v2.py:220-239 | without contact rows nothing changes; otherwise the people are the rebuilt contacts, the first 'primary' contact becomes the contact, and nothing else changes |
| SessionManagementV2.Load | modules/session_management_v2.py:90-252 | a missing session leaves only the cleared store and `False`; otherwise the load succeeds exactly when every loaded answer is text |
| SessionManagementV2.LoadSessionData | modules/session_management_v2.py:90-252 | the store and the result are those of the load's specification |
| SessionManagementV2.RestoreHeader | modules/session_management_v2.py:152-167 | the session row's assignments leave the specified store |
| SessionManagementV2.BuildQuestions | modules/session_management_v2.py:170-183 | the question loop rebuilds the specified questions |
| SessionManagementV2.RestoreContentRows | modules/session_management_v2.py:186-218 | the content loop leaves the specified store |
| SessionManagementV2.RestoreContacts | modules/session_management_v2.py:220-239 | the people and the primary contact are restored as specified |
| SessionManagementV2.BuildPeople | modules/session_management_v2.py:222-231 | the contact loop rebuilds the specified people |
| SessionManagementV2.FindPrimary | modules/session_management_v2.py:236 | the search returns the first 'primary' contact's position, or -1 |
| SessionManagementV2.RestoredSpec | modules/session_management_v2.py:152-218 | after restoring, the session id is the loaded one, the company is the stored one, the questions are the rebuilt rows, and the contact is present exactly when the session row's is truthy |
| SessionManagementV2.LoadRestores | modules/session_management_v2.py:90-239 | a load of a found session restores its id, company and questions; the contact is the first 'primary' contact, or else the session row's truthy contact |
| SessionManagementV2.LoadKeysCleared | modules/session_management_v2.py:94 | every key a load sets is one that clearing removes (also lines 416-425) |
| SessionManagementV2.LoadKeepsOthers | modules/session_management_v2.py:90-239 | a load keeps the presence and value of every key clearing does not remove |
| SessionManagementV2.Label | modules/session_management_v2.py:51-59 | a label exists exactly for a known content type and is one of the known labels |
| SessionManagementV2.LabelsSpec | modules/session_management_v2.py:59 | every label is known, there are no more labels than items, and exactly as many when every item is known |
| SessionManagementV2.LabelsAppend | modules/session_management_v2.py:59 | labels keep the order of the items |
| SessionManagementV2.AvailableLabelsBound | modules/session_management_v2.py:47-61 | every label a listing shows is a known one |
| SessionManagementV2.ListedLabels | modules/session_management_v2.py:47-61 | a stored list of known content types shows one label per type |
| SessionManagementV2.Number | modules/session_management_v2.py:72 | `int` keeps an integer and raises on `None`, lists and dictionaries; on text it reads decimal digits (also lines 73, 76-78) |
| SessionManagementV2.Decimal | modules/session_management_v2.py:74 | `float` agrees with `int` wherever `int` succeeds, and raises on `None`, lists and dictionaries |
| SessionManagementV2.NumberOfPrinted | modules/session_management_v2.py:72-78 | a count stored as an integer or as its printed text converts back to that integer, and to the same real under `float` |
| SessionManagementV2.CountsOf | modules/session_management_v2.py:72-78 | the counts exist exactly when the four counts convert under `int` and the completion percentage under `float` |
| SessionManagementV2.CountsOfPrinted | modules/session_management_v2.py:72-78 | a row whose counts are integers or their printed text lists exactly those counts, the percentage as a real |
| Values.ParseInt | modules/session_management_v2.py:72 | text `int` accepts is non-blank once stripped and starts with a digit or a sign |
| Values.ParseIntOfDigits | modules/session_management_v2.py:72 | a run of digits, with or without a minus sign, reads as its value |
| Values.ParseIntOfPrinted | modules/session_management_v2.py:72 | `int(str(i)) == i` for every integer |
| Values.ParseDecimalExtendsInt | modules/session_management_v2.py:74 | whatever text `int` reads, `float` reads as the same number |
| Values.UnsignedDecimal | modules/session_management_v2.py:74 | a decimal without a sign is never negative |
| Text.DigitsValueOfNatToString | modules/session_management_v2.py:72 | reading back the digits `str(n)` prints gives `n` |
| SessionManagementV2.ListingOf | modules/session_management_v2.py:63-79 | a listing exists exactly when the counts convert (`int` and `float` as above); it keeps the session id, has content exactly when the content count is positive, and shows only known labels |
| SessionManagementV2.GetSavedSessions | modules/session_management_v2.py:12-88 | when every row converts, one listing per row in order; when any does not, no listing at all |
| SessionManagementV2.StartNewSession | modules/session_management_v2.py:433-453 | the store, the writes and the flags are those of the fresh start's specification |
| SessionManagementV2.ClearKeysListed | modules/session_management_v2.py:418-425 | the session id and the questions are among the keys clearing removes |
| SessionManagementV2.StartKeepsOthers | modules/session_management_v2.py:433-453 | a fresh start succeeds exactly when the company is a dictionary; then the cleared keys are gone and every other key keeps its value, otherwise nothing changes |
| SessionManagementV2.StartDropsQuestionsWithoutCompany | modules/session_management_v2.py:436-447 | questions without a company are not saved, yet the saved message is shown and the questions are removed |
| SessionManagementV2.DeleteSession | modules/session_management_v2.py:455-470 | every statement deletes the session's rows, every table is cleared, and the session row goes last, after the rows that refer to it |
| SessionManagementV2.DeleteCoversSave | modules/session_management_v2.py:254-414 | every row a save writes is in a table that deleting its session clears (also lines 455-470) |
| Values.ParseDecimal | modules/session_management_v2.py:74 | text `float` accepts is non-blank once stripped |

## Left out

- Streamlit rendering and widgets (`st.*` output, spinners, messages, page layout, the chat tab, `st.rerun()`): only their effect on the session store is modelled.
- Backend I/O (`session.sql`, `conn.query`, `write_pandas`, `st.connection`): a query's rows or error message are parameters, and the v2 statements are recorded as `Write` values; the SQL text of reporting and persistence queries is a label.
- `json.loads`, `json.dumps` and `str` are parameters (`loads`, `show`); no JSON grammar is modelled.
- `time.sleep`, `datetime.now` with its formatting, and `uuid.uuid4` are parameters or a recorded wait sequence.
- Case mapping and whitespace follow the ASCII tables; Python's Unicode-aware `lower`, `upper`, `title` and `isspace`, and the regular-expression classes `\w` and `\s` that `Experts.CleanTerms` keeps, also act on other characters.
- Floating point: completion percentages are reals before `round`, and rounding is not modelled; `modules/data_visualization.py` and `create_roadmap_value_chart` are not part of this model.
- Experts.Score: the share of terms found is `100 * matched / total` in integers; the source's float `int((s / m) * 100)` falls one lower at some fractions (29 of 100 terms gives 28 there, 29 here).
- pandas DataFrame mechanics (`drop_duplicates`, `groupby`, `concat`) and `st.cache_data`. A frame is held as the value it was built from: its rows (a list, `SessionManagement.Frame`) or its columns (a dictionary), and `StateManagement.FrameLength` counts rows from the first column. `empty` is read as having no row, as `StateManagement.FrameLength` counts them, so a list of rows without columns (which pandas calls empty) counts as non-empty. `SessionManagement.Records` saves held rows as they are, without the missing columns pandas fills with `NaN`; it reads a dictionary whose first column is not a list as having no records (pandas refuses a scalar column and indexes by an inner dictionary's keys), and pads a shorter column with `None` (pandas refuses columns of different lengths). In `SessionManagementV2.ContentItems` the roadmap is present when the held value is truthy, so a dictionary of empty columns counts as present there, and its payload is the held value rather than `to_dict('records')`.
- `create_pdf` (FPDF with latin-1 encoding) and `format_for_gdocs` are not part of this model.
- `generate_export_urls`' draft1.ai link (a URL-encoded prompt) and its fixed Whimsical and Lucidchart entries: only the file names are modelled.
- `prepare_discovery_notes(None)` reading the questions from the session store: the questions are always passed.
- The selected model name is a parameter of `Completion.CortexRequest`; which model the page selects is not modelled.
- The prompt-building generators (`research_person`, `generate_company_summary`, the roadmap, chatbot, value hypothesis, business case, competitive argument and outreach prompts, the `regenerate_*` functions, people insights and the demo prompt) are prompt text plus one `cortex_request`; only what their callers keep from the reply is modelled.
- `save_answers_to_snowflake` is one `write_pandas` upload; `get_all_sales_engineers`, `get_top_industries` and `get_expert_opportunities` are single queries whose rows go to the page unchanged. None is modelled.
- `get_session_analytics` (both versions) returns the first row of one query or `{}`; it is a pass-through and is not modelled.
- `delete_session` of `modules/session_management.py` issues one `DELETE` through `execute_query`, which never raises, so it always reports success; it is not modelled. The v2 `delete_session` is `SessionManagementV2.DeleteSession`.
- The `exact_pattern` that `search_freestyle_experts` builds is never used; it is not modelled.
- Experts.ExtractFreestyleSkills: skill cells holding values other than strings, on which the source's cleaning step raises and its handler returns the buckets uncleaned, are excluded by its precondition.
- Uncaught raises on malformed values (a `KeyError`, `TypeError` or `AttributeError` that no handler catches) are excluded by the preconditions of the members named in the next lines rather than modelled as outcomes. A company record without `website` and a question without `text` are excluded the same way. Paths where the source catches the exception are modelled, except `Experts.ExtractFreestyleSkills` above.
- LlmPost.DiscoveryQuestions, LlmPost.SelectQuestions, LlmPost.MoreQuestions: reply shapes on which the source raises an uncaught `AttributeError` or `TypeError` are excluded: a truthy reply that is not a dictionary of iterable categories (`.items()`, modules/llm_functions.py:171), a truthy reply that cannot be iterated, and a `questions` entry that cannot be sliced.
- Sales.AddNewQuestionsToCategory, Sales.AddInitiativeQuestions: the same reply shapes are excluded, since these pass the reply to `LlmPost.MoreQuestions` and `LlmPost.SelectQuestions`.
- Sales.PerformPeopleResearch: a truthy research result that is not a dictionary, on which `.get` raises an `AttributeError` (modules/sales_functions.py:171), is excluded, and so is a stored `people_research` that is not a list of records.
- Sales.NotesInput, SalesReport.SummaryReadable, DiscoveryApp.CompanyLabel, AutoPopulate.Populatable: stored values on which the source raises an `AttributeError` are excluded: a non-string answer under `.strip()` or `.lower()`, a company record that is not a dictionary under `.get`, a non-string website under `.replace`, a `roadmap_df` that is no frame (`None` among them) under `.empty`, and non-string notes under `.strip()`.
- Autofill.AutofillInput: a dictionary input with a category that is an empty dictionary is excluded; the source copies it through unchanged. Every other category that is not a list of dictionaries raises before its reply is applied, and is excluded too. The `AttributeError` that `.strip()` raises on a non-string stored answer under a reply is modelled: `Autofill.AutofillResult` returns `Raises`, and `AutoPopulate` reports the `Raised` notice, as it does for the count on a non-string stored answer.
- Autofill.AfterFillUpTo: after a raise on a list input, the caller's list holds the answers written so far, because the merged categories hold the caller's own dictionaries. The model computes that list from the input; it does not model shared references.
- StateManagement.StateManager.HasCompanyData, StateManagement.StateManager.HasRoadmapData: a company record that is not a dictionary (where `.get` raises an `AttributeError`) reads as no company data, and a roadmap that is no frame (where `.empty` raises) reads as no roadmap; the predicates return a truth value and carry no raise.
- Values.ParseInt, Values.ParseDecimal: digit-group underscores, non-ASCII digits and whitespace, exponents, `inf` and `nan` are not read; the values a row holds carry no floating-point numbers, so `int` truncating a float does not arise.
- Drawio.TemplateHead, Drawio.TemplateTail: the fixed draw.io text of `convert_mermaid_to_drawio_xml` carries no contract of its own; a contract that mentions the long text is beyond the solver. `Diagrams.AttributeFile` and `Diagrams.AttributeFileAsWritten` state what the file holds for any fixed text.
- Drawio.DrawioXml, Drawio.DrawioXmlAsWritten: no contract of their own, for the same reason; they are `Diagrams.AttributeFile` and `Diagrams.AttributeFileAsWritten` applied to the fixed text, and those carry the properties.
- Drawio.XmlText, Drawio.XmlTextAsWritten: no contract of their own; the returned document is the draw.io reply's slice, which `Diagrams.GenerateXml` states, or the file above.
- Concurrency: the single-connection global is modelled for one caller.

## Findings

| source | as written | input that shows it | evidently intended | confidence | as-written member | corrected member |
|---|---|---|---|---|---|---|
| modules/llm_functions.py:1166-1170 | with no closing fence, `find` returns -1 and the slice `[start:-1]` drops the reply's last character; the draw.io fallback (lines 1420-1424) calls this extraction, so a one-character block gives no diagram at all | the reply "```mermaid\ngraph TD" yields "graph T"; the reply "```mermaidx" yields nothing, and no fallback diagram | everything after the fence, "graph TD" | not executed | Diagrams.MermaidAsWritten, Diagrams.GenerateXmlAsWritten, Diagrams.UnclosedFenceLosesLastChar, Diagrams.UnclosedFenceExample, Diagrams.FallbackExample | Diagrams.MermaidCode, Diagrams.GenerateXml, Diagrams.FencedBlock |
| modules/llm_functions.py:1203 | the code is escaped for the `value` attribute by replacing only newlines and `"`, so `&` and `<` reach the XML raw | mermaid code `a<b` gives an ill-formed attribute, and code holding `&lt;` reads back as `<` | escape `&` first, then `<`, `"` and newlines, so the attribute reads back as the code | not executed | Diagrams.EscapeAsWritten, Diagrams.AttributeFileAsWritten, Drawio.DrawioXmlAsWritten, Diagrams.EscapeAsWrittenExamples | Diagrams.EscapeAttr, Diagrams.AttributeFile, Drawio.DrawioXml, Diagrams.EscapedIsLegal, Diagrams.UnescapeEscape |
| modules/expert_search.py:362 | Freestyle entries carry no `opportunities`, so extending them raises `KeyError` and the handler returns `{}` | any expert email found by both the Freestyle and the Salesforce search | combine the two entries and keep the higher relevance | not executed | Experts.MergedAsWritten, Experts.OverlapEmptiesAsWritten | Experts.Merged, Experts.MergedCombines, Experts.FindExpertsForCompany |
| modules/sales_functions.py:222-224 | the "before" count reads the list the merge has already filled in place (a shallow copy), and a dictionary of categories is counted by its keys, so every increment is 0 (likewise lines 240-242 and 251-253) | notes "notes", questions `{"Technical": [{"answer": ""}]}` and a reply `{"1": "yes"}`: one answer is gained and 0 is reported | the number of answers the merge filled | not executed | AutoPopulate.GainedAsWritten, AutoPopulate.GainedAsWrittenIsZero, AutoPopulate.GainedAsWrittenExample | AutoPopulate.Gained, AutoPopulate.AutofillKeepsAnswers, AutoPopulate.AutoPopulateAnswers |
| modules/sales_functions.py:147-152 | `generate_initiative_questions` (modules/llm_functions.py:261) is called with four arguments and declares five, so every call raises `TypeError` | any initiative name | pass the initiative's description and append the questions picked out of the reply | not executed | Sales.AddInitiativeQuestionsAsWritten | Sales.AddInitiativeQuestions |
| modules/sales_functions.py:122 | the caller passes the question texts, and `generate_more_questions_for_category` (modules/llm_functions.py:350) indexes each again with `'text'`, which raises on a string | any category that already holds a question | pass the stored questions, so new questions are appended | not executed | Sales.AddNewQuestionsAsWritten | Sales.AddNewQuestionsToCategory |
