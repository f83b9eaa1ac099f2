# History Around Me bot — a Dafny model of its message handling

The bot relays a chat user's text or location to a hosted LLM and sends the
answer back through Telegram. This project models the logic between those
network calls:

- **MarkdownV2 escaping** (`MarkdownV2`, markdown.dfy). Replies go out in Telegram's MarkdownV2 mode. Before sending, each of the eighteen characters `_` `*` `[` `]` `(` `)` `~` `` ` `` `>` `#` `+` `-` `=` `|` `{` `}` `.` `!` gets a backslash in front of it. The source does this with a chain of eighteen `str.replace` calls, modelled literally as `EscapeAsWritten`. The model's reference definition is the single per-character pass `Escape`. `EscapeAsWrittenIsEscape` proves the two equal: each later replacement scans the whole string, but it touches nothing an earlier one inserted, because backslash is not reserved and no character is replaced twice. `Unescape` is an inverse that the source does not have. It shows that escaping loses nothing, and it gives a way to decide whether a text is an escape.
- **Answer generation** (`AnswerGenerator`, answer.dfy). `generate_answer` checks and decides several things before its network call:
  - an empty input gets a fixed answer;
  - the system prompt is the argument if that is non-empty, otherwise the configured one, and an error if both are empty;
  - the request holds two messages, system first and user second.
  
  `PlanAnswer` is that decision. The LLM gateway is a function parameter `llm` from request to response. "No gateway call" means that `GatewayCalls` is empty. The result is the first choice's content, unchanged.
- **Handlers** (`Handlers`, handlers.dfy). A `Bot` object records what the handlers send out:
  - `outbox`: the chat messages;
  - `gatewayRequests`: the LLM requests;
  - `geocodeQueries`: the reverse-geocoding queries;
  - `log`: the health-check log.
  
  Each handler is a method, and its postcondition gives the new contents of these sequences. Its invariant `Valid` says that every message sent in MarkdownV2 mode is the escape of some text. The reverse-geocoding answer is an input to the location handler, as is the LLM's behaviour.
- **Settings** (`Config`, config.dfy): an immutable record that the handlers and the generator read.

Error paths and commands, as the code has them:

- A failing generator raises, and the exception leaves the handler before any reply is sent (src/run_bot.py:61, 81). The handler methods return `Raised(e)` and send nothing.
- A response without choices fails on `choices[0]` (src/utils.py:41). The model returns `Err(NoChoices)`.
- Only the `start` command greets the user (src/run_bot.py:93).

Because backslash is not among the reserved characters, it passes through unchanged (`BackslashPassesThrough`). So a backslash already in the input followed by a reserved character comes out as two backslashes and then the character. MarkdownV2 reads those two backslashes as one escaped backslash, which leaves the reserved character after them bare. The escaping lemmas therefore state only what the code does: every reserved character is immediately preceded by a backslash. They do not claim that Telegram will accept the text.

## Model

| member | source | states |
|---|---|---|
| `Config.DefaultAllowListAdmitsNobody` | src/config/config.py:25 | with the default empty admin list, no user id is an admin |
| `MarkdownV2.ReservedListed` | src/utils.py:60-77 | the replaced characters are eighteen distinct ones; they are exactly those `IsReserved` accepts; backslash is not among them |
| `MarkdownV2.EscapeAsWrittenIsEscape` | src/utils.py:59-78 | the eighteen chained replacements, in the source's order, equal the single per-character pass for every input |
| `MarkdownV2.ReplaceStep` | src/utils.py:60-77 | one more replacement, of a character not yet handled and not a backslash, escapes that character and leaves earlier insertions alone |
| `MarkdownV2.ReplaceEachEscapes` | src/utils.py:59-78 | a chain of replacements of distinct characters, none of them a backslash, escapes exactly the characters of the chain |
| `MarkdownV2.EscapeConcat` | src/utils.py:59-78 | escaping distributes over concatenation |
| `MarkdownV2.EscapeAt` | src/utils.py:59-78 | each character is escaped independently: the output is the escape of the text before position i, then the escape of character i, then the escape of the text after it |
| `MarkdownV2.EscapeLength` | src/utils.py:59-78 | the output's length is the input's length plus the number of reserved characters in it |
| `MarkdownV2.EscapeIdentityIff` | src/utils.py:59-78 | escaping leaves a text unchanged exactly when it holds no reserved character; the empty text escapes to itself |
| `MarkdownV2.BackslashPassesThrough` | src/utils.py:59-78 | a backslash is left as it is; a backslash in front of a reserved character becomes two backslashes followed by that character |
| `MarkdownV2.EscapeReservedPreceded` | src/utils.py:59-78 | in the output, every reserved character has a backslash immediately before it |
| `MarkdownV2.EscapeKeepsCount` | src/utils.py:59-78 | the output holds as many reserved characters as the input: escaping only adds backslashes |
| `MarkdownV2.EscapeNotIdempotent` | src/utils.py:59-78 | escaping twice strictly lengthens, and so changes, any text that holds a reserved character |
| `MarkdownV2.UnescapeEscape` | src/utils.py:59-78 | removing the backslash before each reserved character recovers the input from its escape |
| `MarkdownV2.EscapeInjective` | src/utils.py:59-78 | different texts have different escapes |
| `MarkdownV2.IsEscapedDecided` | src/utils.py:59-78 | a text is the escape of some text exactly when escaping its unescape gives it back |
| `MarkdownV2.EscapedReservedPreceded` | src/utils.py:59-78 | every reserved character of an escaped text has a backslash immediately before it |
| `AnswerGenerator.ResolvePrompt` | src/utils.py:22-24 | a prompt is in effect exactly when the argument or the configured prompt is non-empty; a non-empty argument wins; the prompt in effect is never empty |
| `AnswerGenerator.BuildRequest` | src/utils.py:30-38 | the request goes to the OpenRouter base URL with the configured key and model; it holds exactly two messages, the system prompt first and the user input second |
| `AnswerGenerator.PlanAnswer` | src/utils.py:19-38 | empty input answers the fallback at once; the prompt-missing error occurs exactly when the input is non-empty and neither prompt is; there are no other errors; otherwise the request is built with the prompt in effect |
| `AnswerGenerator.FirstChoice` | src/utils.py:41 | the answer is the first choice's content, unchanged; a response with no choice fails |
| `AnswerGenerator.GatewayCalls` | src/utils.py:19-40 | at most one request is sent; one is sent exactly when the input is non-empty and a prompt is in effect |
| `AnswerGenerator.GenerateAnswer` | src/utils.py:11-54 | empty input gives the fallback; the prompt-missing error occurs exactly when the input is non-empty and no prompt is in effect; when a request is sent, the answer is the first choice of the gateway's response to it |
| `AnswerGenerator.AnswerWithoutGateway` | src/utils.py:19-24 | when no request is sent, the answer is the same whatever the gateway does |
| `AnswerGenerator.AnswerFromGateway` | src/utils.py:35-54 | a successful answer to a non-empty input came from exactly one request, made of the resolved system prompt and then the input, and is that response's first choice |
| `Handlers.LocationInfo` | src/run_bot.py:60 | the sentence is "You are in", the locality as given, a comma, and the country, or "Unknown country" when there is no country, ending with a period |
| `Handlers.PlacesOfInterest` | src/run_bot.py:67-71 | the prompt-missing error occurs exactly when no system prompt is configured; otherwise exactly one request is sent, with the configured prompt and the text "lat, lon", and the answer is its first choice |
| `Handlers.LocationReplyReadsBack` | src/run_bot.py:59-62 | the location reply unescapes to the location sentence, a blank line and the generator's answer; its escape is the escape of each part |
| `Handlers.Bot.SendReplyText` | src/run_bot.py:85-87 | appends one MarkdownV2 message to the update's chat whose text is the escape of the given text; keeps `Valid` |
| `Handlers.Bot.SendWelcome` | src/run_bot.py:24-31 | appends the fixed greeting, unescaped and without a parse mode, with a one-time keyboard holding one location-request button |
| `Handlers.Bot.HealthCheck` | src/run_bot.py:34-45 | an admin gets exactly one "Bot is live and running!" message, sent to the admin's user id, and a confirmation is logged; anyone else gets no message and a denial is logged |
| `Handlers.Bot.Generate` | src/utils.py:19-41 | returns the generator's answer and records exactly the requests that answer sends |
| `Handlers.Bot.Location` | src/run_bot.py:48-64 | records one geocoding query, in English. With no locality: exactly one reply, the escaped not-found text, and no LLM request. With a locality: the LLM requests of the coordinates prompt without a system prompt of its own; one escaped reply of the location sentence, a blank line and the answer; no reply and the error returned when generation fails |
| `Handlers.Bot.HandleTextMessage` | src/run_bot.py:74-82 | the raw text goes to the generator without a system prompt of its own; exactly one escaped MarkdownV2 reply of its answer, or no reply and the error returned when generation fails |

## Left out

- Loading the settings (src/config/config.py, src/config.py): environment variables, the `.env` file, the YAML prompt file and validation, which are I/O. `Settings` is a given value. Two settings modules with different fields exist, and `src/logging_config.py` is not part of this model. The model uses the fields of src/config/config.py, including the admin allow-list.
- The HTTP calls. The reverse-geocoding GET and its JSON decoding (src/run_bot.py:54-57) become the `GeocodeResponse` input. The OpenAI client call (src/utils.py:30-40) becomes the `llm` parameter. The model records each query (coordinates and language) and each request. It does not model the text of the geocoding URL (host, path and parameter names).
- Turning the float coordinates into text (src/run_bot.py:55, 68). Coordinates are opaque strings.
- JSON values other than text in the geocoding answer. A present `locality` or `countryName` is taken to be the text the f-string renders it to.
- A `None` message content and a missing `usage` in the gateway's response. `Completion.choices` holds text, so the model cannot represent either case. The source behaves as follows:
  - A `None` content (src/utils.py:41) is returned as the answer. The text handler's `escape_markdown_v2(None)` then raises AttributeError, and no reply is sent (src/run_bot.py:82, 86). The location handler's f-string instead writes the literal text `None` after the blank line (src/run_bot.py:62).
  - A `usage` of `None` makes src/utils.py:43-45 raise after the answer has been read. The handler then sends no reply, where the model's `GenerateAnswer` returns `Ok` with the first choice.
- Timing and token-usage logging (src/utils.py:28, 43-52), and every informational log line except the health-check entries.
- Handler registration, the command menu and the polling loop (src/run_bot.py:90-131), which are library plumbing.
- Failures of the network libraries and of the chat platform's send. The source does not handle them.
- `MarkdownV2.Replace` models `str.replace` only for a one-character pattern, which is all the escaper uses.
