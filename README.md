# Library assistant: tool bridge and book tools, modelled in Dafny

The system is a chat assistant for choosing books. Its client (`chat_app_mcp.py`)
connects to a Model Context Protocol (MCP) server, discovers the server's tools and
turns each tool's JSON-Schema into a typed LangChain tool. It hands the tools to a
language-model agent and serves a Gradio chat. The server (`mcp_server.py`) offers
five Open Library tools: `search_books`, `search_authors`, `browse_subject`,
`get_author_works` and `recommend_books`. Each one normalises its arguments, sends
one or two HTTP requests and formats the decoded reply as text.

This project models the deterministic data shaping on both sides:

- `wrappers.dfy` (`Wrappers`): `Option`, used for JSON keys that may be absent and
  for globals that may still be `None`.
- `text.dfy` (`Text`): the string operations the programs use. These are ASCII
  `lower()`, one-character `replace`, `split` and `join`, `strip()`, `s[:n]`, `str(n)`,
  and the `for i, x in enumerate(xs, 1): result += ...` loop (`AppendNumbered`).
- `tool_schema.dfy` (`ToolSchema`): `create_dynamic_tool`. It covers the type map, the
  field list, the args model, the text extraction of `_call` and the session guard of
  `call_mcp_tool`.
- `tool_catalog.dfy` (`ToolCatalog`): `load_tools_from_mcp`, the numbered tool list in
  the agent's system prompt, and the bulleted tool list of `create_ui`.
- `conversation.dfy` (`Conversation`): `convert_history_to_messages`, `chat`, and
  `respond`. `respond` is a method of a `ChatHistory` class because it appends to the
  history list in place.
- `request_params.dfy` (`RequestParams`): limit clamping, the sort suffix, subject
  formatting, author-id cleanup and the size of the supplementary search.
- `listings.dfy` (`Listings`): the four listing tools.
- `recommend.dfy` (`Recommend`): `recommend_books`, which merges, deduplicates,
  truncates and formats.

Inputs from outside the programs are parameters:
- Each HTTP request plus JSON decode is a `Fetch` value: the decoded record, a
  timeout, or a failure with its message. `recommend_books` ignores failures, so
  there each reply is an `Option`.
- A JSON `.get(k, default)` is an `Option` field read with `GetOr(default)`.
- The remote tool's reply is its list of content parts.
- The agent's `invoke` is a function argument.
- The module globals `_mcp_session` and `_agent` are `Option` arguments of the
  members that test them.
- Each tool method also returns the URL it requests, so the contracts can say which
  request is made.

History entries whose role is neither `user` nor `assistant` are dropped silently, as
the code does. `call_mcp_tool` turns no failure of the cross-thread call into an error
string; such a failure propagates, and the model adds no error path for it (see
"Left out").

## Model

| member | source | states |
|---|---|---|
| `ToolSchema.PythonType` | chat_app_mcp.py:74-85 | `integer`, `number` and `boolean` map to int, float and bool exactly. Every other tag, and a missing one, maps to str, so translation never fails on a tag |
| `ToolSchema.TranslateProperties` | chat_app_mcp.py:69-86 | one field per property, with the same keys in iteration order. A field is required exactly when its name is in `required`, otherwise its default is None. It is typed by the type map, and a missing description becomes `""` |
| `ToolSchema.CreateDynamicTool` | chat_app_mcp.py:64-114 | the tool keeps its name and description. It has no args model exactly when the schema has no properties (a missing `properties` counts as `{}`); otherwise the model is `<name>Args` over the translated fields |
| `ToolSchema.TextsOfAppend` | chat_app_mcp.py:100-103 | text extraction distributes over concatenation, so the extracted texts keep the order of the parts |
| `ToolSchema.TextsOfSpec` | chat_app_mcp.py:100-104 | at most one text per part. Nothing is extracted exactly when no part carries text, and every text is kept when all parts do |
| `ToolSchema.FlattenContent` | chat_app_mcp.py:96-105 | an empty content list gives "No result returned". Content without text parts gives "No text result". Otherwise the result is the texts joined by newlines |
| `ToolSchema.CallMcpTool` | chat_app_mcp.py:92-107 | without a session: "Error: MCP session not initialized", and no request is dispatched. With one: exactly the tool's name and the arguments are dispatched, and the reply is flattened |
| `ToolSchema.JoinedTextsRecoverable` | chat_app_mcp.py:104 | when no text contains a newline, splitting the joined result at newlines gives back the texts |
| `ToolCatalog.LoadTools` | chat_app_mcp.py:117-131 | one proxy per discovered tool, in order, with the same name and the translated schema (a tool without `inputSchema` is treated as `{}`). A missing or empty description becomes "Tool: <name>" |
| `ToolCatalog.ToolPromptLines` | chat_app_mcp.py:147-149 | the prompt lines are one per tool, numbered from 1 in order, each holding the first line of the description |
| `ToolCatalog.CreateAgentWithTools` | chat_app_mcp.py:144-154 | the agent gets the tools and a system prompt that is the template with the newline-joined numbered lines in place of `{tool_list}` |
| `ToolCatalog.PromptToolList` | chat_app_mcp.py:147-152 | with single-line tool names, the prompt's tool list splits back into exactly one line per tool |
| `ToolCatalog.PromptLinesNumbered` | chat_app_mcp.py:148-149 | line k of the prompt's tool list reads as the number k, counting from 1 |
| `ToolCatalog.UiDescriptionSpec` | chat_app_mcp.py:197-200 | the description shown in the UI list has no `\|` (replaced by `-`), no newline and no surrounding whitespace |
| `ToolCatalog.UiToolList` | chat_app_mcp.py:195-203 | "- No tools available" when there are no tools; otherwise one bullet per tool, in order, joined by newlines |
| `Conversation.ConvertHistoryToMessages` | chat_app_mcp.py:157-165 | the loop builds exactly the converted list |
| `Conversation.ConvertedAppend` | chat_app_mcp.py:159-165 | conversion distributes over concatenation, so the kept entries stay in order |
| `Conversation.ConvertedKeepsChatEntries` | chat_app_mcp.py:160-164 | the messages read back as history are exactly the `user` and `assistant` entries, unchanged and in order: user becomes Human, assistant becomes AI |
| `Conversation.HistoryRoundTrip` | chat_app_mcp.py:161-164 | human and AI messages survive the round trip through the history format unchanged |
| `Conversation.ConvertedLength` | chat_app_mcp.py:157-165 | the output is never longer than the history, and it has the same length exactly when every role is `user` or `assistant` |
| `Conversation.Chat` | chat_app_mcp.py:168-189 | without an agent: the fixed not-initialised error, and nothing is sent. Otherwise the agent is sent the converted history followed by the new message as the last element. The answer is the last message of the reply, "Error: list index out of range" for an empty reply, or "Error: <e>" for an exception |
| `Conversation.ChatHistory.Respond` | chat_app_mcp.py:237-244 | a whitespace-only message leaves the history unchanged. Any other message appends exactly two entries, the user's message and then the assistant's answer. The input box is cleared |
| `Text.StripSpec` | chat_app_mcp.py:238 | `strip()` is empty exactly for all-whitespace input. Otherwise its result starts and ends with a non-space and is a piece of the input |
| `Text.FirstPieceSpec` | chat_app_mcp.py:149 | `split("\n")[0]` is the prefix before the first newline, or the whole string when there is no newline |
| `Text.AppendNumbered` | mcp_server.py:58-76 | the formatting loop yields the header followed by one entry per record, numbered 1..n in input order |
| `Text.ListedItems` | mcp_server.py:200 | a `", "`-joined list of comma-free items splits at commas back into the items, in order: the first as it was, and each later one after its space |
| `RequestParams.Clamp` | mcp_server.py:35 | `min(max(lo, x), hi)` lies in [lo, hi], keeps an in-range value, and maps values below or above the range to its ends |
| `RequestParams.SearchLimit` | mcp_server.py:99 | the limit of `search_books`, `search_authors` and `browse_subject` lies in [1, 20], and an in-range value is unchanged |
| `RequestParams.AuthorWorksLimit` | mcp_server.py:231 | the limit of `get_author_works` lies in [1, 50], and an in-range value is unchanged |
| `RequestParams.RecommendLimit` | mcp_server.py:291 | the limit of `recommend_books` lies in [1, 10], and an in-range value is unchanged |
| `RequestParams.SortParam` | mcp_server.py:37-43 | "new", "old" and "rating" give their `&sort=` suffix. Every other value, "relevance" included, gives the empty suffix |
| `RequestParams.NormalizeSubjectSpec` | mcp_server.py:159 | the formatted subject has the input's length, no space and no upper-case ASCII letter, and keeps every other character |
| `RequestParams.NormalizeSubjectIdempotent` | mcp_server.py:294 | formatting a subject twice equals formatting it once |
| `RequestParams.AuthorKeySpec` | mcp_server.py:234-235 | an id with `/` is reduced to the text after its last `/`, which holds no `/`. An id without `/` is kept |
| `RequestParams.SupplementSize` | mcp_server.py:318-320 | the search supplement is requested exactly when fewer than `limit` results exist. It asks for `limit - len(results)` items, which is more than 0 |
| `Listings.SearchBooks` | mcp_server.py:22-83 | the request has the clamped limit and the sort suffix. An empty reply gives the fixed "No books found" message. Otherwise: the header, then one entry per book numbered from 1 in reply order. Timeout and failure give their error texts |
| `Listings.BookEntryNumber` | mcp_server.py:60-71 | the entry for book k starts with the number k |
| `Listings.SearchAuthors` | mcp_server.py:87-138 | the request has the clamped limit. An empty reply gives the fixed "No authors found" message. Otherwise: the header, then one entry per author numbered from 1 in order, each listing at most its first 5 subjects. Timeout and failure give their error texts |
| `Listings.SubjectsLine` | mcp_server.py:122-129 | the subjects line is omitted exactly when the truncated subject list is empty |
| `Listings.BrowseSubject` | mcp_server.py:142-215 | the request has the formatted subject and the clamped limit. An empty reply gives the fixed "No books found for subject" message. Otherwise: the header, one entry per work numbered from 1, then the related-subject and top-author lines. Timeout and failure give their error texts |
| `Listings.RelatedSubjectsLine` | mcp_server.py:196-201 | the related-subjects line is absent exactly when the reply has no subjects |
| `Listings.RelatedSubjectsListed` | mcp_server.py:197-201 | after its label and before its newline, the line splits at commas into exactly the names of the first min(5, n) subjects, in order. This holds when no name contains a comma |
| `Listings.TopAuthorsLine` | mcp_server.py:203-208 | the top-authors line is absent exactly when the reply has no authors |
| `Listings.TopAuthorsListed` | mcp_server.py:204-208 | after its label and before its newline, the line splits at commas into exactly the "name (count works)" items of the first min(3, n) authors, in order. This holds when no name contains a comma |
| `Listings.GetAuthorWorks` | mcp_server.py:219-273 | the request has the cleaned id and a limit clamped to [1, 50]. An empty reply gives the fixed "No works found" message, naming the cleaned id. Otherwise one entry per work numbered from 1, each with at most 3 subjects |
| `Recommend.AppendAll` | mcp_server.py:305-313 | each collection loop appends one candidate per reply item, in order, after the existing results |
| `Recommend.DedupByTitle` | mcp_server.py:342-348 | the `seen_titles` loop computes the deduplicated list |
| `Recommend.UniqueKeepsTitles` | mcp_server.py:343-348 | deduplication loses no lower-cased title |
| `Recommend.UniqueDistinct` | mcp_server.py:343-348 | no two kept entries have equal lower-cased titles |
| `Recommend.UniqueIsFirstOccurrences` | mcp_server.py:343-348 | the kept entries are exactly those whose title no earlier entry has, in input order: an order-preserving subsequence that keeps first occurrences |
| `Recommend.UniqueNonEmpty` | mcp_server.py:337-348 | a non-empty candidate list keeps at least one entry |
| `Recommend.CollectCandidates` | mcp_server.py:296-335 | subject candidates come first. The search request is made only on a shortfall, for exactly the shortfall, and its candidates follow |
| `Recommend.FormatRecommendations` | mcp_server.py:337-365 | no candidates give the fixed apology. Otherwise: the header, the first `limit` deduplicated candidates numbered from 1, then the tip |
| `Recommend.RecommendBooks` | mcp_server.py:277-365 | the subject request has the formatted interest and the limit clamped to [1, 10]. The search request is made only on a shortfall and asks for the shortfall. The text is the apology or the listing |
| `Recommend.ShownRecommendations` | mcp_server.py:350 | between 1 and `limit` entries are listed, with pairwise different lower-cased titles, and they are the first first-occurrences of the candidates |

## Left out

- The thread and event-loop bridge is concurrency, and this model does not cover concurrency. That means `_run_in_mcp_loop` with its 30-second wait, `start_mcp_thread` with its 60-poll readiness loop, and `run_mcp_session` with its handshake and keep-alive loop. As a result, the exceptions that `_run_in_mcp_loop` raises out of `call_mcp_tool` (loop not initialised, timeout) are not modelled either.
- `ToolSchema.CallMcpTool`: the remote reply is an input, so a remote-side exception during `call_tool` is not modelled.
- HTTP requests, `raise_for_status` and JSON decoding are I/O. Each tool receives the decoded reply or an abstract timeout or failure. The failure text `str(e)` is an opaque string.
- JSON values are taken at the types the code expects (strings, integers, booleans, lists). A key present with value `null` is treated like an absent key. A type tag that is not a string is not modelled. A JSON list or object makes the lookup at chat_app_mcp.py:85 raise; a number or boolean falls back to str.
- `Recommend.CollectCandidates`: a reply either contributes all its items or none. A malformed item can raise inside a collection loop, for example an `authors` element that is not an object, or a name that is not a string in `", ".join` (mcp_server.py:308, :327). The bare `except: pass` (mcp_server.py:314, :334) then swallows the error and keeps the items appended before it. That partial append is not modelled.
- Floating-point values are not modelled. Argument values of JSON type `number` are carried as Dafny reals, and only integers are rendered into text.
- Python's `lower()` and `strip()` are modelled on ASCII only. `strip()` removes the ASCII characters Python treats as whitespace, including 0x1C-0x1F. Unicode case mapping and non-ASCII whitespace are not modelled.
- The emoji in the server's output are constants holding the intended code points. They are not the mis-encoded bytes the source file contains.
- The Gradio layout, its event wiring, the clear button and the page header text (endpoint and tool count) are UI code.
- These are foreign libraries: LangChain's `create_agent` and `agent.invoke`, Pydantic's `create_model`, and `ChatOpenAI`. The agent is a value holding its tools and system prompt, `invoke` is a parameter, and the args model is a value holding its name and field list.
- The server tools' default arguments (`limit=5`, or `limit=10` for `get_author_works`, `sort="relevance"`, `ebooks_only=False`) are not modelled: every method takes all its arguments explicitly, so a caller passes the defaults itself.
- Environment variables, `print` logging and `traceback.print_exc()` are left out.
- FastMCP registration, `mcp.run`, the static resource text and the prompt text are framework plumbing and constant text.
