# MCP agents and Google Workspace helpers: a Dafny model

This project models the deterministic core of a collection of Python MCP
(Model Context Protocol) agents. It covers five parts.

- **The Groq tool-calling agent** of `mcp-notion-email/groq_agent.py`
  (module `GroqAgent`).
  - It flattens the MCP servers' tool lists into function schemas named
    `server_tool`.
  - It routes a function name chosen by the model back to a (server, tool)
    pair: it splits at the first `_`, and a name without `_` falls back to a
    scan over the servers.
  - It runs one batch of tool calls.
  - It has a fixed protocol for appending to the conversation history, with
    at most one tool round per message.
- **The Notion/Email configuration** of `mcp-notion-email/config.py`
  (module `NotionEmailConfig`): the static `MCP_SERVERS` table and
  `validate_config`.
- **The Google Workspace formatters** of `Docs-sheet-mcp/Direct-Api.py`
  (module `DirectApi`).
  - Document text extraction.
  - The document view, truncated at 3000 characters.
  - The spreadsheet as a Markdown table.
  - The Drive search and recent-files listings.
- **The Google MCP server configuration** of `Docs-sheet-mcp/main.py`
  (module `GoogleMcp`).
- **The set-up checks** of `Docs-sheet-mcp/test-credentials.py` (module
  `TestCredentials`).

Module `PyText` holds the Python value semantics the others share:
- `os.getenv` on an environment map;
- truthiness;
- `str(n)`, with a round-trip lemma;
- `str.join`;
- list comprehension filtering;
- `split(c)[-1]`.

Every vendor call is a parameter of the model:
- the Groq completion endpoint;
- the MCP manager's `list_all_tools` and `call_tool`;
- the Google Drive, Docs and Sheets clients;
- `Path.exists`, `json.load`, `__import__`, `subprocess.run`.

Each parameter gives a result, or the exception the call raised. The
Python code's exception handling is modelled on those outcomes.

The imperative parts are Dafny methods that build their result step by
step, each proved against a reference function. These are:
- the nested schema loop;
- the tool-call loop;
- the history field of the agent class;
- the `missing` list;
- the document and listing loops;
- the sheet-row loop.

The properties the code promises are proved about the reference functions,
as lemmas.

The sheet formatter shows `data[1:50]`, which is at most 49 body rows. Its
notice says "showing 50 of N rows". That notice is appended only when the
data has more than 51 rows, so with exactly 51 rows the 50th body row is
silently dropped. The model keeps this behaviour as written and states it
in `DirectApi.NoticeCountsOneRowTooMany` and
`DirectApi.FiftyBodyRowsDropOneSilently`.

## Model

| member | source | states |
|---|---|---|
| PyText.Getenv | mcp-notion-email/config.py:38-43 | `os.getenv` gives a truthy value exactly when the variable is set to a non-empty string, and then that string |
| PyText.NatTextRoundTrip | Docs-sheet-mcp/Direct-Api.py:147 | the decimal text `str(n)` of a natural number reads back as n |
| PyText.NatTextInjective | Docs-sheet-mcp/Direct-Api.py:219 | distinct counts print differently |
| PyText.LastField | Docs-sheet-mcp/Direct-Api.py:151 | `s.split(c)[-1]` is a suffix of s without c, preceded by c when shorter than s |
| PyText.FilterMeaning | Docs-sheet-mcp/test-credentials.py:96 | a list comprehension with a condition keeps exactly the accepted elements, in their order |
| GroqAgent.CreateToolSchemas | mcp-notion-email/groq_agent.py:46-61 | the nested loops produce the reference schema list, one schema per (server, tool) pair |
| GroqAgent.SchemaCount | mcp-notion-email/groq_agent.py:50-59 | the number of schemas is the sum of the tool-list lengths |
| GroqAgent.SchemaAt | mcp-notion-email/groq_agent.py:52-58 | tool j of server i yields, at position offset(i) + j, type "function", name `server_tool`, description with " (Server: …)" and the unchanged input schema |
| GroqAgent.ServerSchemas | mcp-notion-email/groq_agent.py:51-58 | one schema per tool of a server, in list order |
| GroqAgent.Resolve | mcp-notion-email/groq_agent.py:103-114 | a resolved route never has an empty server name |
| GroqAgent.SplitAtFirstUnderscore | mcp-notion-email/groq_agent.py:103-104 | `p_t` with no `_` in p resolves to (p, t) whatever t contains; an empty p is not found |
| GroqAgent.SchemaNameRoundTrip | mcp-notion-email/groq_agent.py:103-104 | a generated schema name resolves back to (server, tool name) if and only if the server name is non-empty and has no `_` |
| GroqAgent.BareNameRoutesToFirstProvider | mcp-notion-email/groq_agent.py:105-121 | a name without `_` resolves exactly when some server lists it and the first such server has a non-empty name, and then to that server |
| GroqAgent.FirstServerWithIsFirstProvider | mcp-notion-email/groq_agent.py:109-112 | the dictionary scan stops at the first server listing the name, and finds none exactly when no server lists it |
| GroqAgent.UnderscoreNameIgnoresListing | mcp-notion-email/groq_agent.py:103-104 | a name containing `_` is routed by its prefix alone, independently of what the servers list |
| GroqAgent.ResultFor | mcp-notion-email/groq_agent.py:114-143 | every result, whether unroutable, successful or raised, carries its call's id |
| GroqAgent.RunToolCalls | mcp-notion-email/groq_agent.py:96-143 | exactly one result per tool call, in order, with the call's id; the invocations made are the reference ones |
| GroqAgent.RunToolCall | mcp-notion-email/groq_agent.py:114-143 | one call gives the reference result, and makes one invocation exactly when its name resolves, to the resolved (server, tool) with the call's arguments |
| GroqAgent.InvocationCount | mcp-notion-email/groq_agent.py:114-127 | the batch calls a tool once per call whose name resolves, and never for an unroutable one |
| GroqAgent.NoToolPath | mcp-notion-email/groq_agent.py:163-166 | without tool calls the history grows by exactly user, raw response and assistant with the same content, and that content is the reply |
| GroqAgent.ToolPath | mcp-notion-email/groq_agent.py:145-162 | with tool calls the history gets user, response, one tool message per call at positions n+2+k with the call's id, then the final answer of a second completion made without tools; lengths n+3+k, or n+2+k when that completion raises |
| GroqAgent.HistoryOnlyGrows | mcp-notion-email/groq_agent.py:73-171 | every path, the error reply included, only appends to the history |
| GroqAgent.GroqNotionEmailSystem.constructor | mcp-notion-email/groq_agent.py:16-18 | the history starts empty |
| GroqAgent.GroqNotionEmailSystem.ProcessMessage | mcp-notion-email/groq_agent.py:63-171 | the reply and the new history are those of the reference protocol; any exception becomes "Error processing message: …" |
| GroqAgent.GroqNotionEmailSystem.AppendToolMessages | mcp-notion-email/groq_agent.py:146-151 | the history gains exactly the tool messages of the results |
| GroqAgent.GroqNotionEmailSystem.ClearConversation | mcp-notion-email/groq_agent.py:173-175 | the history is empty afterwards |
| NotionEmailConfig.ServerEnvCoveredByValidation | mcp-notion-email/config.py:14-30 | notion gets NOTION_API_KEY, email gets GMAIL_ADDRESS and GMAIL_PASSWORD from EMAIL_ADDRESS and EMAIL_PASSWORD; each is a checked variable and is non-empty when `validate_config` runs against the import-time environment |
| NotionEmailConfig.MissingVariablesIsFilter | mcp-notion-email/config.py:35-43 | the four checks build the in-order filter of the required variables by "unset or empty" |
| NotionEmailConfig.MissingVariablesMeaning | mcp-notion-email/config.py:35-43 | a variable is in the missing list if and only if it is required and unset or empty; the list keeps the order GROQ_API_KEY, NOTION_API_KEY, EMAIL_ADDRESS, EMAIL_PASSWORD |
| NotionEmailConfig.ValidateConfig | mcp-notion-email/config.py:32-49 | returns the missing list and true exactly when it is empty, that is when all four are present; it never fails |
| GoogleMcp.LoadedConfigValid | Docs-sheet-mcp/main.py:27-39 | the settings read from the environment validate exactly when one of the two variables is non-empty and a non-empty credentials path names an existing file |
| GoogleMcp.Validate | Docs-sheet-mcp/main.py:31-39 | "Either … must be set" if and only if both settings are falsy; a set path to a missing file fails even with an API key; valid otherwise, with "Configuration valid" |
| GoogleMcp.CreateGoogleMcpConnection | Docs-sheet-mcp/main.py:42-67 | command `npx`, args `-y @modelcontextprotocol/server-gdrive`, env holding each truthy setting under its own name and nothing else |
| GoogleMcp.ValidConfigPassesACredential | Docs-sheet-mcp/main.py:31-55 | a valid configuration passes at least one non-empty credential to the server |
| TestCredentials.MissingFieldsMeaning | Docs-sheet-mcp/test-credentials.py:87-99 | the missing fields are the absent required ones as a subsequence in declared order, empty exactly when all are present |
| TestCredentials.CheckGoogleCredentials | Docs-sheet-mcp/test-credentials.py:45-120 | fails first on an unset variable, then a missing file, then invalid JSON; passes if and only if all six fields are present and the type is "service_account"; file permissions never decide |
| TestCredentials.CheckGroqApiKey | Docs-sheet-mcp/test-credentials.py:122-147 | accepted if and only if the key is set, non-empty and at least 20 characters long; the "gsk_" prefix is only reported |
| TestCredentials.TestPythonPackages | Docs-sheet-mcp/test-credentials.py:149-169 | every package is tried, and the result is true if and only if all import |
| TestCredentials.TestNodeMcpServer | Docs-sheet-mcp/test-credentials.py:171-196 | false if and only if npx is not found |
| TestCredentials.CountPassed | Docs-sheet-mcp/test-credentials.py:202-203 | the passed count never exceeds the total |
| TestCredentials.CountPassedIsTotal | Docs-sheet-mcp/test-credentials.py:202-211 | the passed count equals the total exactly when every check passed |
| TestCredentials.PrintSummary | Docs-sheet-mcp/test-credentials.py:198-221 | true if and only if every result is true, so also for no results |
| TestCredentials.RunAllChecks | Docs-sheet-mcp/test-credentials.py:223-241 | the five named results of the five checks, and exit code 0 exactly when all passed |
| DirectApi.RunTextsAppend | Docs-sheet-mcp/Direct-Api.py:80-82 | the run texts of a paragraph are those of its parts, in order |
| DirectApi.OtherRunIgnored | Docs-sheet-mcp/Direct-Api.py:80-82 | a run without a `textRun` contributes nothing, wherever it is |
| DirectApi.BodyTextsAppend | Docs-sheet-mcp/Direct-Api.py:77-87 | the text of a body is the text of its parts, in order |
| DirectApi.OtherElementIgnored | Docs-sheet-mcp/Direct-Api.py:78-82 | a non-paragraph element contributes nothing |
| DirectApi.PlainParagraphsText | Docs-sheet-mcp/Direct-Api.py:77-87 | paragraphs of single text runs yield their contents in order |
| DirectApi.ReadDocument | Docs-sheet-mcp/Direct-Api.py:71-91 | the content is the in-order join of all text-run contents; an HttpError gives "Failed to read document: …" |
| DirectApi.FormatDoc | Docs-sheet-mcp/Direct-Api.py:166-179 | an error gives "Error: …"; otherwise the header, the first min(3000, len) characters, and the notice with the total length if and only if len > 3000 |
| DirectApi.ShortDocumentShownWhole | Docs-sheet-mcp/Direct-Api.py:174-177 | content of at most 3000 characters is shown whole, with no notice |
| DirectApi.ReadGoogleDoc | Docs-sheet-mcp/Direct-Api.py:156-179 | the tool's text is the formatted extraction, or the error text |
| DirectApi.ReadSpreadsheet | Docs-sheet-mcp/Direct-Api.py:93-112 | an error exactly when the call raises; otherwise the values and the range asked for |
| DirectApi.Pad | Docs-sheet-mcp/Direct-Api.py:215 | a short row is padded with empty cells to the header width; a longer row is kept whole |
| DirectApi.SeparatorCells | Docs-sheet-mcp/Direct-Api.py:210 | the separator line has one `---` per header cell |
| DirectApi.ShownRows | Docs-sheet-mcp/Direct-Api.py:213 | at most 49 body rows are shown, rows 1 to 49 in order |
| DirectApi.RowLinesAreLines | Docs-sheet-mcp/Direct-Api.py:213-216 | one line per shown row, each padded, in order |
| DirectApi.ShowingNotice | Docs-sheet-mcp/Direct-Api.py:218-219 | the notice appears if and only if the data has more than 51 rows |
| DirectApi.FormatSheet | Docs-sheet-mcp/Direct-Api.py:192-203 | an error gives "Error: …"; empty data gives the header and "No data found in the specified range." |
| DirectApi.SheetTable | Docs-sheet-mcp/Direct-Api.py:205-221 | a non-empty sheet is the header, the header-cell line, the separator, the padded rows and the notice |
| DirectApi.NoticeCountsOneRowTooMany | Docs-sheet-mcp/Direct-Api.py:213-219 | when the notice appears it says 50 rows are shown while 49 are |
| DirectApi.FiftyBodyRowsDropOneSilently | Docs-sheet-mcp/Direct-Api.py:213-219 | with exactly 51 rows the last body row is not shown and no notice appears |
| DirectApi.TableRows | Docs-sheet-mcp/Direct-Api.py:213-216 | the row loop produces the reference row lines |
| DirectApi.ReadGoogleSheet | Docs-sheet-mcp/Direct-Api.py:181-221 | the tool's text is the reference sheet text |
| DirectApi.FilesOrErrorEntry | Docs-sheet-mcp/Direct-Api.py:66-69 | when the list call raises, the listing is a single entry lacking the name and the MIME type, so both formatters raise on it |
| DirectApi.MimeLabel | Docs-sheet-mcp/Direct-Api.py:151 | the type shown is the text after the last `.` of the MIME type |
| DirectApi.SearchEntry | Docs-sheet-mcp/Direct-Api.py:148-152 | raises if and only if name, id or mimeType is absent, naming them in that order of access |
| DirectApi.RecentEntryLines | Docs-sheet-mcp/Direct-Api.py:238-242 | numbered title with type, id, a browser line if and only if a link is present, and the modified line |
| DirectApi.RecentEntry | Docs-sheet-mcp/Direct-Api.py:236-242 | raises if and only if mimeType, name or id is absent, naming them in that order of access |
| DirectApi.ListingRaises | Docs-sheet-mcp/Direct-Api.py:148-152 | a listing raises exactly when some file is incomplete, with the error of the first incomplete one |
| DirectApi.ListingText | Docs-sheet-mcp/Direct-Api.py:236-242 | a listing of complete files is their entries in order, file k numbered first + k |
| DirectApi.SearchRaisesAtFirstIncomplete | Docs-sheet-mcp/Direct-Api.py:148-152 | a search that meets an incomplete file raises the KeyError of the first one, whatever follows it |
| DirectApi.FormatSearchEntry | Docs-sheet-mcp/Direct-Api.py:149-152 | one turn of the search loop yields the reference entry: its four lines, or the KeyError of the first absent key |
| DirectApi.SearchErrorRaisesKeyError | Docs-sheet-mcp/Direct-Api.py:142-149 | a failed search is not reported as such: the tool raises KeyError('name') |
| DirectApi.SearchListingNumbered | Docs-sheet-mcp/Direct-Api.py:144-154 | "Found n file(s)" followed by the complete files' entries numbered from 1 |
| DirectApi.SearchGoogleDrive | Docs-sheet-mcp/Direct-Api.py:132-154 | the tool's text is the reference listing, or the no-match message for no files |
| DirectApi.RecentShowsFirst20 | Docs-sheet-mcp/Direct-Api.py:236 | files after the 20th never affect the listing |
| DirectApi.RecentListingNumbered | Docs-sheet-mcp/Direct-Api.py:232-244 | the heading and the first min(n, 20) entries numbered from 1, each with a browser line exactly when it has a link |
| DirectApi.RecentErrorRaisesKeyError | Docs-sheet-mcp/Direct-Api.py:230-237 | a failed listing is not reported as such: the tool raises KeyError('mimeType') |
| DirectApi.RecentRaisesAtFirstIncomplete | Docs-sheet-mcp/Direct-Api.py:236-242 | a listing that meets an incomplete file among the first 20 raises the KeyError of the first one |
| DirectApi.FormatRecentEntry | Docs-sheet-mcp/Direct-Api.py:237-242 | one turn of the recent-files loop yields the reference entry: its lines, or the KeyError of the first absent key |
| DirectApi.CollectEntries | Docs-sheet-mcp/Direct-Api.py:148-152 | the entry loop appends each entry's text in order and stops at the first KeyError |
| DirectApi.ListRecentFiles | Docs-sheet-mcp/Direct-Api.py:223-244 | the tool's text is the reference listing, or the fixed message for no files |

## Left out

- Vendor SDKs are parameters of the model, and their behaviour is not modelled. These are the Groq client, the MCP manager (`mcp-notion-email/mcp_manager.py` is not part of this model), the agno `Agent` and `MCPTools`, and the Google API clients with their authentication.
- Printing to stdout or stderr is left out everywhere. It has no effect on any result.
- `initialize` and `close` of the agent only call into the MCP manager and print.
- The `json.loads` of tool-call arguments in `process_message` is left out, and the arguments are passed on as opaque text. An argument string that is not JSON raises there, which leads to the error reply; that path is not modelled.
- Outside the core modelled here are the interactive loops, `input()`, the demo and the other agents of the repository.
- The output `result.content if hasattr(result, 'content') else str(result)` is modelled as the string the executor returns.
- `_create_tool_schemas` on a tool dictionary that lacks a key raises KeyError. Tools are modelled as records that always carry all three keys.
- The model response's `content` is modelled as a string. A `None` content is not distinguished.
- Exceptions of the Google clients other than `HttpError` propagate out of `Direct-Api.py`, and they are not modelled.
- The query text and the page-size and ordering parameters of the Drive calls are not modelled. The file list is an input.
- Sheet cells are modelled after `str(cell)`, as strings.
- Document and spreadsheet titles are optional; an absent one prints as "None", as in Python.
- DirectApi.FormatSearchEntry: builds one entry's lines and then appends them to `result`, while the source appends line by line. A `KeyError` discards `result` either way.
- DirectApi.FormatRecentEntry: builds one entry's lines before appending them, for the same reason as `FormatSearchEntry`.
- The file-permission check in `test_google_credentials` reads `stat` only to print a hint, so it is not an input.
- `os.stat` failures are not modelled.
- A credentials file whose top-level JSON value is not an object always fails the check. In the source this happens through the missing-fields message or through a caught exception, depending on the value. The model gives it one verdict, `NotAnObject`.
- TestCredentials.RunAllChecks: `load_dotenv` is left out. The environment the later checks see is a parameter, and `.env` existence is a boolean.
- Of JSON values, only strings are distinguished, since only the `type` field is compared.
- NotionEmailConfig: the class attributes are evaluated once, at import, against one environment. `validate_config` reads GROQ_API_KEY from that captured attribute and the other three variables from the current environment. The model keeps the two environments apart.
- The one-tool-round limit of `process_message` is modelled as written. There is no multi-round loop and no iteration bound.
