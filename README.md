# DeepSeek summarizer — Dafny model

This project models `DeepSeekSummarizer.generate_summary` of the Discord
summarizer. The method takes a batch of chat messages and joins their
formatted contents with newlines. It keeps only the trailing 12000
characters, resolves a system/user prompt pair through the prompt template
provider and sends one chat-completion request to the DeepSeek endpoint.
It returns the first choice's text. Any failure on the way is caught and
reported as a string starting with
`Unable to generate summary with DeepSeek. Error: `.

Files:

- `pytext.dfy` (module `PyText`): the Python string operations the method
  uses. `"\n".join` is `Join` and `s[start:]` is `SliceFrom`. `s.split("\n")`
  is `Split`, an independent partner of `Join`. Joining the pieces of a
  split gives every text back. Splitting a join gives the parts back only
  when no part holds a newline, because `Join(["a\nb"]) == Join(["a", "b"])`.
- `deepseek.dfy` (module `DeepSeek`): the constants, the request and log
  records, truncation, and `Run`. `Run` is the whole method as a function
  of its inputs and of the outcomes of the collaborators it calls. It
  returns a `Trace`: the return value, the requests sent and the log
  entries written. `Respond` is the part after truncation (lines 44-82),
  given the combined text and the message count to report.
  `GenerateSummary` is the return value alone.

The collaborators are parameters of `Run`:

- `getPrompts` stands for `PromptTemplates.get_prompts`.
- `formatUserPrompt` stands for `PromptTemplates.format_user_prompt`.
- `send` stands for `client.chat.completions.create`.

Each either returns or raises an exception with a text (`Fallible`,
`Outcome`). The prompt dictionary is a `map<string, string>`, so a missing
`system_prompt` key is the `KeyError` case. Its reported text is
`'system_prompt'`. An empty `choices` list is the `IndexError` case, with
text `list index out of range`. Both texts are what Python's `str(e)`
gives for those exceptions.

Three details of the code that are easy to miss:

- The code logs the success line (line 77) before it reads `choices[0]`
  (line 78). So an empty choices list logs both the success line and the
  error line.
- The budget is held in a variable called `max_tokens`, but it counts
  characters, not tokens. The model calls it `TruncationBudget`.
- The message count is logged only after the prompts resolve (line 53). A
  failing `get_prompts` therefore logs no count.

## Model

| member | source | states |
|---|---|---|
| `DeepSeek.NewClient` | summarizers/deepseek.py:12-23 | the client keeps the caller's API key and talks to `https://api.deepseek.com` |
| `DeepSeek.FormattedContents` | summarizers/deepseek.py:35 | one text per message, in input order, each the message's formatted content |
| `PyText.Join` | summarizers/deepseek.py:36 | Python's `"\n".join`; described by `JoinLength`, `JoinAppend`, `SplitJoin` and `JoinSplit` |
| `PyText.JoinLength` | summarizers/deepseek.py:36 | the joined text is empty for no parts, and otherwise as long as the parts plus one separator per gap |
| `PyText.JoinAppend` | summarizers/deepseek.py:36 | joining a concatenation of two non-empty lists is joining each and putting one newline between them |
| `PyText.SplitJoin` | summarizers/deepseek.py:36 | for a non-empty list whose parts hold no newline, splitting the joined text on newlines gives back the parts in order |
| `PyText.JoinSplit` | summarizers/deepseek.py:36 | every text is the join of its newline-split pieces, so the split loses nothing (the join does lose part boundaries when a part holds a newline) |
| `PyText.SliceFrom` | summarizers/deepseek.py:42 | Python's `s[start:]` is a suffix of `s`; a negative start within range keeps exactly `-start` characters, and one beyond range keeps all |
| `DeepSeek.Truncate` | summarizers/deepseek.py:39-42 | the result is a suffix of the text of at most 12000 characters; a text within the budget is unchanged; a longer one becomes exactly 12000 characters |
| `DeepSeek.CombinedText` | summarizers/deepseek.py:35-42 | the text handed on is at most 12000 characters, a suffix of the newline join of the contents, and the whole join when that fits; see also `EmptyBatch`, `ShortBatchSentWhole` and `OlderMessagesIrrelevant` |
| `DeepSeek.TruncateKeepsTail` | summarizers/deepseek.py:40-42 | an over-budget text is cut to exactly its last 12000 characters |
| `DeepSeek.TruncateIdempotent` | summarizers/deepseek.py:39-42 | truncating a second time changes nothing |
| `DeepSeek.EmptyBatch` | summarizers/deepseek.py:35-36 | an empty batch gives the empty combined text |
| `DeepSeek.ShortBatchSentWhole` | summarizers/deepseek.py:35-40 | any batch, empty or multi-line, whose joined contents fit the budget is passed on as the newline join of its contents in input order |
| `DeepSeek.ShortBatchRecoverable` | summarizers/deepseek.py:35-40 | for a non-empty batch of single-line contents whose lengths plus separators fit the budget, splitting the text passed on recovers each content in input order |
| `DeepSeek.OlderMessagesIrrelevant` | summarizers/deepseek.py:35-42 | once the newer messages alone fill the budget, prepending older messages does not change the text sent |
| `DeepSeek.BuildRequest` | summarizers/deepseek.py:56-75 | the request names model `deepseek-chat` and `max_tokens` 1000 and holds exactly two messages: role `system` with the system prompt, then role `user` with the user prompt |
| `DeepSeek.Fail` | summarizers/deepseek.py:80-82 | a failure returns the fixed error prefix followed by the error text, keeps the requests already sent, and appends one error entry with that text to the log |
| `DeepSeek.Respond` | summarizers/deepseek.py:44-82 | everything after truncation; described by `RespondLog`, `RespondReports` and `RespondIgnoresCount`, and through `Run` by `Run`'s contract |
| `DeepSeek.Run` | summarizers/deepseek.py:33-82 | at most one request, through the summarizer's client. No request when `get_prompts` raises, the `system_prompt` key is missing or `format_user_prompt` raises; each gives the error prefix plus the error text. Otherwise exactly one request: model `deepseek-chat`, `max_tokens` 1000, a system message with the system prompt, then a user message with the user prompt formatted from the combined text. A raised remote call gives the prefix plus its text; an empty choices list gives the prefix plus `list index out of range`; otherwise the result is the first choice verbatim |
| `DeepSeek.RespondLog` | summarizers/deepseek.py:44-82 | after truncation no warning is logged; the given message count is logged exactly when `get_prompts` returns; each error log carries the same text as the returned report; an unanswered request leaves an error entry last in the log |
| `DeepSeek.RunLog` | summarizers/deepseek.py:39-82 | the truncation warning is logged first, and exactly when the joined text is over budget; the logged message count is the number of input messages and is logged exactly when the prompts resolve; each error log carries the same text as the returned report; whenever the request was not answered, the log ends with an error entry |
| `DeepSeek.RespondReports` | summarizers/deepseek.py:78-82 | unless the one request came back with at least one choice, the result starts with the fixed error prefix |
| `DeepSeek.GenerateSummary` | summarizers/deepseek.py:25-82 | the call always returns a string: the first choice verbatim when the one request came back with at least one choice, and an error report starting with the fixed prefix otherwise |
| `DeepSeek.RequestsUseOwnClient` | summarizers/deepseek.py:56 | a summarizer built by the constructor sends its request to `https://api.deepseek.com` with the caller's key |
| `DeepSeek.RespondIgnoresCount` | summarizers/deepseek.py:53-82 | the message count reaches only the log: the summary and the requests do not depend on it |
| `DeepSeek.SameCombinedTextSameResult` | summarizers/deepseek.py:42-75 | the request and the summary depend on the messages only through the combined (truncated) text |

## Left out

- The HTTPS call and the OpenAI client library (lines 20-23, 56) are foreign code doing network I/O. The model keeps the endpoint and key in `Client` and takes the call's outcome as the parameter `send`. Retries the library may make inside one `create` call are folded into that single outcome, so "one request" means one `create` call.
- `PromptTemplates.get_prompts` and `format_user_prompt` are not part of this model. They are parameters, and no claim is made about how overrides take precedence over templates.
- `BaseSummarizer` is not part of this model. The constructor's `super().__init__` call is not modelled.
- Python's exception classes and `str(e)` are folded into one error text per failure. The only texts fixed by the model are those of the two exceptions the modelled inputs can make the method raise: the missing key and the empty index.
- Python strings may hold lone surrogate code points, which a Dafny `char` cannot. Texts containing them are not modelled.
- `formatted_content` is taken to be a string. A non-string content would make `join` raise a `TypeError`, which the model does not cover.
- The first choice's `message.content` is taken to be a string. A `None` content, which the API may return, is not modelled.
- Log messages are recorded as structured entries: the warning's two lengths, the message count, a success marker and the error detail. The formatted log text is not modelled.
- Concurrency and reentrancy of the shared client are not modelled. Each call is one pure function of its inputs.
