# Course-materials assistant: tool orchestration and course tools

This project models two parts of a retrieval-augmented course assistant.

The first part is `AIGenerator` (backend/ai_generator.py). It answers a user's
query by calling a language model in rounds. Each round may ask for tools:

- The tools requested in a round are run and their results appended to the
  message log.
- The call ends as soon as a response asks for no tools, the model call
  fails, or a tool failed in the previous round.
- Only when both budgeted rounds ask for tools is a third, final call made,
  with tools disabled.
- Every failure ends as text: a failed model call becomes an apology, and a
  failed tool becomes a "Tool execution failed: …" result.

The second part is the tools and their registry (backend/search_tools.py):

- `CourseSearchTool` searches the course store, formats the hits, and keeps
  the provenance (source labels and links) of its last successful search.
- `CourseOutlineTool` renders a course's title, link and sorted lesson list.
- `ToolManager` registers tools by name, dispatches calls to them, hands out
  the latest provenance and clears it.

Modules:

- `Common` (common.dfy): `Option`, Python truthiness, `str.join`, Python's
  `str(int)` with its round trip, tool definitions, keyword arguments and tool
  outcomes.
- `Sorting` (sorting.dfy): Python's `sorted(…, key=…)` as a stable insertion
  sort. It is proved sorted, a permutation of its input, and stable.
- `SearchTools` (search_tools.dfy): the store as a bundle of functions, the
  two tools as classes, and the registry as a class over an insertion-ordered
  list of name/tool entries.
- `AiGenerator` (ai_generator.dfy): the round loop over a mutable `RoundState`
  object. `GenerateResponse` is proved equal to the recursive specification
  `Generate`, and the lemmas about `Generate` state the call budget, the
  request shapes, the message-log shape and the failure handling. The legacy
  single-shot `_handle_tool_execution` is modelled beside it.

External services are parameters:

- The model client is a function from (call index, request) to an outcome.
- The tool manager, as the loop sees it, is a function from (invocation index,
  tool call) to an outcome.
- The vector store is a record of functions: `search`, `_resolve_course_name`,
  `course_catalog.get`, `get_lesson_link` and `get_course_link`.

The comment at backend/ai_generator.py:194 marks a tool failure for
termination. The flag is read only after the next call
(backend/ai_generator.py:150-152), so after a round-1 tool failure the
round-2 request still offers tools, and its text is the answer
(`ToolFailureInFirstRound`).

## Model

| member | source | states |
|---|---|---|
| AiGenerator.SystemContent | backend/ai_generator.py:77-81 | The system text is the fixed prompt alone exactly when the history is falsy; otherwise it is the prompt, the "Previous conversation" heading and the history, in that order. |
| AiGenerator.RequestFor | backend/ai_generator.py:121-131 | A request carries the log and system text; it carries the tools and the automatic tool choice exactly when tools are available, and neither otherwise. |
| AiGenerator.ErrorResponseKeepsMessage | backend/ai_generator.py:226-228 | The apology is the fixed head, the message and the fixed tail, and the message can be read back from it. |
| AiGenerator.TerminationConditions | backend/ai_generator.py:143-166 | The loop stops on an error string, on a tool failure in the previous round, and on a response without content; otherwise it goes on exactly when the response has a tool-use block. |
| AiGenerator.Respond | backend/ai_generator.py:133-141 | A successful call yields the response itself; a raised call yields the apology "API error in round N: <detail>". |
| AiGenerator.ExtractFinalText | backend/ai_generator.py:211-224 | An apology string passes through; no content gives the incomplete-response text; a first block with text gives that text; any other first block gives the processing-error text. |
| AiGenerator.ExecuteRound | backend/ai_generator.py:116-141 | One round sends the request built from the current round state and returns the response or its apology for the current round number. |
| AiGenerator.PrepareNextRound | backend/ai_generator.py:168-209 | The log grows by the assistant turn and, when there are results, one tool-results turn; the failure flag and the invocations are those of the round's tool loop; round number and tool availability are unchanged. |
| AiGenerator.RoundsStops | backend/ai_generator.py:96-98 | A round whose response stops the loop ends the call with that response's text, after one more request. |
| AiGenerator.RoundsContinues | backend/ai_generator.py:109-111 | A round before the last budgeted one that asks for tools sends one request, absorbs the round and moves to the next round number with the new log and failure flag. |
| AiGenerator.RoundsForcedFinal | backend/ai_generator.py:100-107 | The last budgeted round that asks for tools is absorbed, then one more request is sent without tools and its text is the answer. |
| AiGenerator.GenerateResponse | backend/ai_generator.py:55-114 | The loop's answer, requests and tool invocations are exactly those of the specification `Generate`, and it sends between one and three requests. |
| AiGenerator.AbsorbCalls | backend/ai_generator.py:180-185 | The manager is invoked once per tool-use block, in block order, with that block's name and input; without a manager nothing is invoked. |
| AiGenerator.AbsorbResults | backend/ai_generator.py:180-202 | There is one tool result per tool-use block, in block order; result j echoes block j's id and carries the text or failure text of invocation j. |
| AiGenerator.AbsorbFailed | backend/ai_generator.py:193-209 | The failure flag is set exactly when some invocation of the round raised. |
| AiGenerator.AbsorbShape | backend/ai_generator.py:168-209 | The three facts above together: results, invocations and failure flag of one round. |
| AiGenerator.AbsorbNoToolUse | backend/ai_generator.py:180-206 | A response without tool-use blocks yields no results, no invocations and no failure. |
| AiGenerator.ToolUsesExist | backend/ai_generator.py:158-164 | A response has a tool-use block exactly when its list of tool-use blocks is non-empty. |
| AiGenerator.NextMessagesAppendsRound | backend/ai_generator.py:171-206 | After a round, the log is the old log, then the assistant turn with the whole response, then a tool-results turn only if the response asked for tools, with one result per tool-use block echoing its id. |
| AiGenerator.RoundsPrefix | backend/ai_generator.py:93-111 | The rest of a call keeps the requests already sent, sends at least one more, never exceeds three in all, and the next request carries the current log. |
| AiGenerator.RoundsRequests | backend/ai_generator.py:122-131 | Every later request carries the call's system text and offers tools exactly when tools are enabled and its index is within the round budget. |
| AiGenerator.RoundsSteps | backend/ai_generator.py:93-111 | A request is followed by another only if its response succeeded and asked for tools, and the log grows by exactly that round between them. |
| AiGenerator.RoundsFailure | backend/ai_generator.py:134-148 | If the last call failed, the answer is the apology naming its round; the forced final call reports round 2. |
| AiGenerator.CallBudget | backend/ai_generator.py:93-107 | A call makes one to three model calls, starts with the query-only request, only the last call can have failed, and a failure is answered with its apology. |
| AiGenerator.ToolsOfferedOnlyInBudgetedRounds | backend/ai_generator.py:84-131 | Tools and the automatic tool choice appear in a request exactly when a non-empty tool list and a manager were given and the request is one of the first two; the forced final call never offers them. |
| AiGenerator.SameSystemEveryRound | backend/ai_generator.py:77-126 | Every request of a call carries the same system text. |
| AiGenerator.MessageLogShape | backend/ai_generator.py:84-111 | The first request carries the query alone, and consecutive requests differ by exactly one absorbed round whose response asked for tools. |
| AiGenerator.AnswerWithoutToolUseEndsTheCall | backend/ai_generator.py:143-166 | A first response without tool use ends the call after one request, with no tool run, returning its first text. |
| AiGenerator.FirstCallFailureIsApology | backend/ai_generator.py:134-148 | A failed first call ends the call at once, with no tool run, returning the verbatim round-1 apology. |
| AiGenerator.RoundOneApology | backend/ai_generator.py:226-228 | The apology for a round-1 failure is the fixed head, "API error in round 1: ", the detail and the fixed tail. |
| AiGenerator.ToolFailureInFirstRound | backend/ai_generator.py:150-152 | A tool failure in round 1 allows exactly one more model call, with the same tool offer, and returns its text; no further tools run. |
| AiGenerator.ToolUseInBothRoundsForcesFinalCall | backend/ai_generator.py:100-107 | If round 1 asks for tools and all of them succeed, and round 2 asks for tools again, a third call is made without tools and its text is returned without inspecting it for tool use; a tool failure in round 2 does not prevent that call. |
| AiGenerator.RoundState.constructor | backend/ai_generator.py:84-90 | The round state starts in round 1 with the query alone, the call's system text and tool availability, and no failure. |
| AiGenerator.AbortedStays | backend/ai_generator.py:252-256 | In the legacy variant, once a tool has raised, later blocks change nothing. |
| AiGenerator.LegacyAgreesWithRoundLoop | backend/ai_generator.py:250-264 | The legacy tool loop aborts exactly when the round loop would set its failure flag, and otherwise yields the same results and invocations. |
| AiGenerator.HandleToolExecution | backend/ai_generator.py:230-279 | Tool failures propagate and stop the run; otherwise one call without tools is made on a copy of the caller's log extended by the assistant turn and the results; the caller's parameters are not modified; client failures, empty content and a non-text first block propagate. |
| SearchTools.NoContentMessages | backend/search_tools.py:82-88 | An empty search says "No relevant content found", then " in course '<c>'" only for a truthy course, then " in lesson <n>" only for a truthy lesson, then "."; lesson 0 adds nothing. |
| SearchTools.SearchText | backend/search_tools.py:78-91 | A truthy store error is returned as it is; an empty result gives the no-content message; otherwise the formatted entries joined by blank lines. |
| SearchTools.CourseSearchTool.Execute | backend/search_tools.py:54-91 | The tool returns `SearchText` of the store's reply; a formatted reply records one label and one link per pair; an error or empty reply leaves both provenance lists as they were; lists in step stay in step. |
| SearchTools.CourseSearchTool.FormatResults | backend/search_tools.py:93-130 | The text is the blank-line join of one entry per zipped pair, in order; both provenance lists are replaced, one label and one link per pair, so they are in step. |
| SearchTools.CourseSearchTool.constructor | backend/search_tools.py:24-27 | A new search tool has empty provenance lists. |
| SearchTools.Pairs | backend/search_tools.py:99 | `zip` yields as many pairs as the shorter of documents and metadata. |
| SearchTools.HeaderShowsLabel | backend/search_tools.py:103-113 | An entry's header is the recorded source label in brackets. |
| SearchTools.ProvenanceUpToAt | backend/search_tools.py:109-122 | Label j is the course title (default "unknown") with " - Lesson n" when a lesson is known; link j is the lesson link, else the course link unless the title is "unknown", else none. |
| SearchTools.LessonLinesUpToAt | backend/search_tools.py:202-205 | Outline line j is "<number or Unknown>. <title or Untitled>" for sorted lesson j. |
| SearchTools.OutlineText | backend/search_tools.py:156-212 | An unresolved title gives "No course found matching '<input>'"; a raising catalog gives "Error retrieving course outline: <detail>"; no metadata gives "Course metadata not found for '<resolved>'"; otherwise the newline join of the outline lines. |
| SearchTools.OutlineShape | backend/search_tools.py:181-209 | The outline lines are the title line (default "Unknown Course"), the link line (or "Not available"), then either the no-lessons line alone or the lessons heading and one line per lesson in sorted order. |
| SearchTools.OutlineOrder | backend/search_tools.py:202 | The outline's lessons are in ascending number order (missing as 0), are a permutation of the record's lessons, and keep record order among equal numbers. |
| SearchTools.CourseOutlineTool.Execute | backend/search_tools.py:156-212 | The tool returns exactly `OutlineText` for its store and input. |
| SearchTools.CourseOutlineTool.constructor | backend/search_tools.py:136-137 | The outline tool keeps the store it was given. |
| SearchTools.BindSearch | backend/search_tools.py:54-59 | The search tool's keywords bind exactly when they are among query, course_name and lesson_number and include query; the bound query is the one given, and a missing filter is `None`; an unexpected key gives the unexpected-keyword error before a missing query gives the missing-argument error. |
| SearchTools.BindOutline | backend/search_tools.py:156 | The outline tool's keywords bind exactly when they are course_title alone, and the bound title is the one given; an unexpected key gives the unexpected-keyword error, otherwise a missing title gives the missing-argument error. |
| SearchTools.Find | backend/search_tools.py:235 | A name is found at its first position, and is not found exactly when no entry carries it. |
| SearchTools.PutShape | backend/search_tools.py:227 | Registering keeps names unique, maps the name to the new tool, leaves every other name's tool unchanged, and appends the name only if it is new. |
| SearchTools.FirstSources | backend/search_tools.py:240-246 | The scan returns the first non-empty source list in registration order, and returns [] exactly when no search tool has sources. |
| SearchTools.FirstSourceLinks | backend/search_tools.py:248-254 | The same scan over the link lists. |
| SearchTools.ScansAgree | backend/search_tools.py:240-254 | When each search tool keeps its lists in step, the sources and links handed out have equal length and are empty together. |
| SearchTools.ToolManager.constructor | backend/search_tools.py:218-219 | A new registry is empty. |
| SearchTools.ToolManager.RegisterTool | backend/search_tools.py:221-227 | A definition without a truthy name raises "Tool must have a 'name' in its definition" and changes nothing; otherwise the tool is stored under its name, replacing any tool already there, and the registry stays consistent. |
| SearchTools.ToolManager.GetToolDefinitions | backend/search_tools.py:229-231 | There is one definition per registered tool, in registration order; each is that tool's own `get_tool_definition` and carries its registered name; no name appears twice. |
| SearchTools.ToolManager.ExecuteTool | backend/search_tools.py:233-238 | An unknown name gives "Tool '<name>' not found" and runs nothing; otherwise the named tool runs with the arguments, and binding failures and tool failures propagate; only the search tool that ran may change, and every search tool whose lists were in step keeps them in step. |
| SearchTools.ToolManager.GetLastSources | backend/search_tools.py:240-246 | The result is the source list of the first search tool, in registration order, whose list is non-empty, and [] exactly when there is none. |
| SearchTools.ToolManager.GetLastSourceLinks | backend/search_tools.py:248-254 | The same first-match scan over the link lists. |
| SearchTools.ToolManager.ResetSources | backend/search_tools.py:256-262 | Every search tool's two lists are cleared, so they are in step and both lookups then return []. |
| Common.NatToStringIsCanonical | backend/search_tools.py:106 | Python's `str` of a natural number is a non-empty run of digits without a leading zero. |
| Common.IntToStringSign | backend/search_tools.py:106 | `str` of an integer starts with "-" exactly for negative numbers. |
| Common.NatToStringRoundTrip | backend/search_tools.py:106 | Reading back the digits of `str(n)` gives `n`. |
| Sorting.SortIsSortedPermutation | backend/search_tools.py:202 | `sorted` by key returns the input's elements in ascending key order, each as often as in the input. |
| Sorting.SortIsStable | backend/search_tools.py:202 | `sorted` by key keeps the input order among elements with equal keys. |

## Left out

- The network client, model name, temperature and token limit: the client is a parameter, and the constant parameters are not part of a request.
- The wording of `SYSTEM_PROMPT`: a placeholder constant stands for it.
- Vector-store internals (embeddings, course-name matching, link lookup): these are functions given to the model.
- Exceptions raised by `search`, `_resolve_course_name`, `get_lesson_link` and `get_course_link`: the store functions always return.
- Which store calls were made: the store functions are pure, so "without querying the catalog" is not observable.
- `json.loads` of `lessons_json`: a record carries its lessons already decoded, or `None` when they do not decode.
- JSON null values and lesson lists that decode to something other than a list of objects: not modelled.
- Unexpected-keyword messages omit the offending key's name: the argument map has no order, so the key Python would name is not determined.
- Tools other than the two course tools that carry `last_sources` attributes: only the search tool is scanned and reset.
- Keyword-argument values other than strings, integers and `None` (floats, booleans, lists, objects): a value such as `lesson_number: true` would render as " in lesson True", which the model cannot express.
- Content blocks without a `type` attribute, and responses without a `content` attribute: not modelled. Only a text block is treated as carrying `.text`.
- AiGenerator.GenerateResponse: the loop sees the tool manager only through the dispatcher function. The effect of tool runs on tool state (provenance) is modelled by `ToolManager.ExecuteTool`, not composed into the loop.
- AiGenerator.GenerateResponse: the unreachable fallback after the loop is kept but not reasoned about.
