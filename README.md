# shex: a verified model of the agent's bookkeeping

shex is a command-line assistant. It sends a conversation to a chat model.
The model answers with text or with `execute_command` tool calls. shex runs
those commands in a shell, asking the user first when the model marks one
as dangerous, and feeds the results back until the model stops calling tools.

This project models the sequential, deterministic core of that loop and
proves what it promises:

- **`Agent`** (`agent.py`):
  - trimming the conversation before it is saved (`save_context`) and
    filtering it on load (`load_context`);
  - merging streamed tool-call fragments into a list indexed by
    `tc.index`, and building the assistant message from it;
  - answering a tool call, with its output and error truncated;
  - the retry counters of `run`.
- **`Animation`** (`spinner.py`): the `Spinner` class as a sequential state
  machine whose operations are atomic steps. `write`, the flag update of
  `stop` and each spin iteration hold the spinner's lock; `start` takes no
  lock but is only called from the main thread. Time is an integer number
  of milliseconds, and terminal output is an append-only log per stream.
- **`Tools`** (`tools.py`):
  - the result record of `execute_command`, built from an abstract
    process outcome (`Exited`, `TimedOut` or `Raised`), with the decline
    path spawning nothing;
  - the character-reader loop;
  - `get_system_info`;
  - the `TOOLS` schema.
- **`Cli`** (`main.py`):
  - `colorize`;
  - the yes/no prompts and their re-prompt loops;
  - numbered-menu validation;
  - the `enable_context` answer;
  - the configuration wizard's decisions and the `.env` text it writes;
  - the "do not repeat the last history line" rule of `save_history`.
- **`Text`** and **`Wrappers`** supply the Python string operations the
  source relies on (`strip`, `lower`, `isdigit`, `int`, `str`, `join`,
  `split`) and an `Option` type.

An empty string stands for Python's `None` wherever the source only tests
truthiness: a tool-call id, a colour, a start message, a chunk's content.

## Model

| member | source | states |
|---|---|---|
| Agent.NonSystem | shex/agent.py:294 | the filtered list has no system message, is no longer than its input, and equals the input when the input had none |
| Agent.NonSystemAppend | shex/agent.py:294 | filtering distributes over concatenation, so filtering keeps file order |
| Agent.UserIndices | shex/agent.py:302 | the user-message positions are in bounds, strictly increasing, complete, and as many as the user messages |
| Agent.KeepTurns | shex/agent.py:304-313 | the kept list is a contiguous suffix of the context; it is empty when `max_turns <= 0` and unchanged when the user messages already fit |
| Agent.CapMessages | shex/agent.py:317-318 | the result is the last `min(50, len)` messages of its input, so the input itself when it has at most 50 |
| Agent.SavedContext | shex/agent.py:290-318 | the saved context has no message with role "system"; it is the last `min(50, len)` messages of the turn-trimmed list, hence a suffix of the non-system messages in original order, and empty when `max_turns <= 0` |
| Agent.KeepTurnsCount | shex/agent.py:304-309 | with more than `max_turns > 0` user messages, exactly `max_turns` are kept and the kept list starts at a user message; otherwise all are kept |
| Agent.UsersFromIndex | shex/agent.py:302-306 | the suffix starting at the j-th user message holds exactly the user messages from the j-th on |
| Agent.CountUsersSuffix | shex/agent.py:306-318 | a suffix never has more user messages than the whole |
| Agent.SavedContextTurns | shex/agent.py:290-318 | the saved context holds at most `max_turns` user messages, and none when `max_turns <= 0` |
| Agent.CappedTurns | shex/agent.py:304-318 | cutting the kept turns down to the last 50 messages leaves at most `max_turns` user messages |
| Agent.SavedContextUnchanged | shex/agent.py:304-318 | when `max_turns > 0` and the non-system messages have at most `max_turns` user messages and at most 50 messages, they are saved unchanged |
| Agent.ShexAgent.constructor | shex/agent.py:19-40 | a new agent's history is just the system prompt |
| Agent.ShexAgent.ClearHistory | shex/agent.py:286-288 | clearing resets the history to the system prompt alone |
| Agent.ShexAgent.LoadContext | shex/agent.py:326-340 | a list in the file appends its non-system messages, in file order, after the untouched existing history; a missing file, unreadable JSON or a non-list changes nothing |
| Agent.ShexAgent.AddUserInput | shex/agent.py:116-119 | `run` appends the user's message to the history |
| Agent.LoadAfterInit | shex/agent.py:335-338 | after a fresh start and a load, the non-system part of the history is exactly the loaded file's non-system messages |
| Agent.SaveLoadSave | shex/agent.py:290-340 | saving, starting afresh, loading that file and saving again writes the same list as the first save |
| Agent.ApplyDelta | shex/agent.py:154-167 | after a fragment with index k the list has more than k entries; earlier entries are unchanged, padding entries are empty, the id and name take the fragment's non-empty values, and the arguments grow by the fragment's arguments; a fragment without index changes nothing |
| Agent.AccumulateDelta | shex/agent.py:154-167 | the padding loop and merge compute exactly `ApplyDelta` |
| Agent.Accumulate | shex/agent.py:141-167 | the tool-call list after folding in the fragments; what it holds is stated by `Agent.AccumulateSpec` |
| Agent.AccumulateSpec | shex/agent.py:141-167 | after any fragment sequence, the list has one entry per index up to the largest seen; entry k holds the last non-empty id and name for k and the in-order concatenation of k's argument fragments |
| Agent.Untouched | shex/agent.py:156-160 | an index beyond all fragments has no id, name or arguments |
| Agent.CollectStream | shex/agent.py:138-167 | the streamed text is the concatenation of the chunks' contents, and the call list is the accumulation of all fragments in chunk order |
| Agent.AccumulateChunk | shex/agent.py:154-167 | processing one chunk's fragments extends the accumulation by exactly those fragments |
| Agent.AccumulateOneMore | shex/agent.py:154-167 | one more fragment is merged into the accumulated list by `ApplyDelta` |
| Agent.StreamStep | shex/agent.py:141-167 | one more chunk extends the streamed text by its content and the fragment list by its fragments |
| Agent.ChunkContents | shex/agent.py:149-151 | each chunk contributes one content piece |
| Agent.WithIds | shex/agent.py:181-191 | the calls recorded in the assistant message; `Agent.WithIdsSpec` and `Agent.WithIdsAppend` state which and in what order |
| Agent.WithIdsSpec | shex/agent.py:181-192 | the recorded calls are exactly the calls of the list that have an id; some call is recorded exactly when some call has an id |
| Agent.WithIdsAppend | shex/agent.py:181-192 | filtering distributes over concatenation, so the recorded calls keep list order |
| Agent.AssistantMessage | shex/agent.py:179-191 | the assistant message `run` appends; its role, content and calls are stated by `Agent.AssistantMessageCalls` |
| Agent.EndsTurn | shex/agent.py:195 | the test that ends the turn; `Agent.AssistantMessageCalls` states it holds exactly when the message records no call |
| Agent.AssistantMessageCalls | shex/agent.py:180-198 | the turn ends exactly when the assistant message records no tool call; the recorded calls all have ids; the content is absent exactly when the streamed text is empty |
| Agent.Truncate | shex/agent.py:94-95 | the truncated string is the prefix of length `min(len, n)` |
| Agent.HandleToolCall | shex/agent.py:71-103 | the reply keeps the call id and is an execution result exactly for `execute_command`; it carries the command's success and code, and exactly `output[:2000]` and `error[:500]` of the command's result |
| Agent.ConfirmOnlyWhenDangerous | shex/agent.py:83-88 | for a command not marked dangerous the confirmation callback is never consulted, and the result is never the declined code unless the process itself exited with it |
| Agent.RetryStep | shex/agent.py:222-230 | a success leaves the counters alone; a failure adds one to both; reaching `max_retries` resets the current count if `continue_fn` approves the total, and otherwise ends `run` with the total |
| Agent.CountFailed | shex/agent.py:222-225 | the failure count is bounded by the number of replies |
| Agent.RetryRun | shex/agent.py:209-230 | the retry counters after a turn's replies; stated by `Agent.RetryRunCounts` and `Agent.GiveUpWithoutContinue`, and computed by `Agent.CountRetries` |
| Agent.CountRetries | shex/agent.py:209-230 | the loop over a turn's tool replies computes exactly `RetryRun` |
| Agent.RetryRunCounts | shex/agent.py:222-230 | the total grows by exactly the number of failures while `run` continues, it never decreases, and the current count stays below `max_retries`; giving up reports a total between the old total and old total plus the failures |
| Agent.GiveUpWithoutContinue | shex/agent.py:276-284 | without `continue_fn`, `max_retries - retry_count` consecutive failures end `run`, reporting that many more retries |
| Animation.FrameIndex | shex/spinner.py:11-28 | the frame index is always inside the 10-glyph list, and is `i` itself for `i < 10` |
| Animation.Frames | shex/spinner.py:20-32 | no frame is drawn exactly when no iteration came after the 100 ms debounce window; at most one frame is drawn per iteration |
| Animation.Spinner.constructor | shex/spinner.py:9-18 | a new spinner is stopped, hidden, threadless, last printed at time 0, and keeps the message and delay |
| Animation.Spinner.Start | shex/spinner.py:34-48 | while running, only the message may change and no thread is spawned; while stopped, it starts with exactly one new thread and a hidden line; an empty message keeps the old one |
| Animation.Spinner.Stop | shex/spinner.py:50-61 | afterwards the spinner is stopped, hidden and threadless, and the line-clear sequence was written |
| Animation.Spinner.Write | shex/spinner.py:63-98 | stopped: nothing is written and nothing changes; running: a visible frame is erased first, the content is written to its stream inside the colour code and reset, the line is hidden and the last print time is now |
| Animation.Spinner.Spin | shex/spinner.py:20-32 | a running spinner runs every iteration and draws exactly `Frames` of the clock readings; a stopped one draws nothing; `visible ==> running` is kept |
| Animation.Spinner.SpinStep | shex/spinner.py:23-30 | one iteration draws frame `i` and shows the line exactly when running and more than 100 ms have passed since the last print; otherwise nothing changes |
| Tools.Proceeds | shex/tools.py:34-35 | whether the command runs; `Tools.DeclinedIgnoresOutcome` states that only a dangerous command whose callback answers no is stopped |
| Tools.CommandResultFor | shex/tools.py:34-125 | declined gives (false, "", the decline text, -1); an exit gives `success == (code == 0)` with the code and both pipes' text; a timeout gives (false, the stdout so far, the timeout text, -2); an exception gives (false, "", its message, -3); success implies code 0 |
| Tools.ReadPipe | shex/tools.py:74-88 | the reader stores one single-character string per character `read(1)` yields (decoded text, newlines already translated) in order, so joining them gives back that text, and echoes every character |
| Tools.ExecuteCommand | shex/tools.py:15-125 | a process is spawned exactly when the command is not declined, and the result is `CommandResultFor` the outcome |
| Tools.DeclinedIgnoresOutcome | shex/tools.py:34-41 | a declined command's result does not depend on the process, and only a dangerous command with a callback that says no is declined |
| Tools.EnvFallback | shex/tools.py:136-137 | the first variable if set and non-empty, else the second if set, else "unknown" |
| Tools.InfoValues | shex/tools.py:130-138 | one value per key of the info dictionary |
| Tools.GetSystemInfo | shex/tools.py:128-139 | the system info text; `Tools.SystemInfoLines` states its lines |
| Tools.SystemInfoLines | shex/tools.py:128-139 | when no value contains a newline, the system info splits back into exactly seven lines, the k-th being `- key: value` for the k-th key in order |
| Tools.ExecuteCommandSchema | shex/tools.py:143-169 | the one tool requires exactly `command`, `explanation`, `is_dangerous`, which are its declared properties, and only `is_dangerous` is boolean |
| Cli.Colorize | shex/main.py:69-80 | the result is the colour's code, the text, then the reset code; an unknown colour gives no code in front |
| Cli.ClassifyAnswer | shex/main.py:217-222 | a stripped, lower-cased y/yes/是 is a yes, n/no/否 is a no, anything else is neither |
| Cli.ClassifyIgnoresPadding | shex/main.py:217 | whitespace around a reply does not change how it is read |
| Cli.FirstAnswer | shex/main.py:214-233 | no answer results exactly when every reply is neither yes nor no |
| Cli.AskYesNo | shex/main.py:214-233 | the re-prompt loop returns the first clear reply, having read every unclear one before it; it returns nothing only when the input ends |
| Cli.EnableContext | shex/main.py:163-164 | context is enabled exactly when the answer is not a clear no; an empty answer enables it |
| Cli.MenuChoice | shex/main.py:153-155 | a reply is accepted exactly when, stripped, it is all digits with value between 1 and the entry count, and the chosen index is that value minus one, in bounds |
| Cli.MenuChoiceOfShownNumber | shex/main.py:99-102 | typing the number printed before entry i, with any surrounding whitespace, selects entry i |
| Cli.FirstMenuChoice | shex/main.py:152-157 | the selected index is in bounds, and nothing is selected exactly when every reply is rejected |
| Cli.AskMenu | shex/main.py:152-157 | the menu loop returns the first accepted reply, having rejected every reply before it |
| Cli.EnvLines | shex/main.py:191-202 | three header lines, then one `DEEPSEEK_API_KEY=` line for DeepSeek, or the `LLM_API_KEY`, `LLM_BASE_URL`, `LLM_MODEL` lines in that order for every other model |
| Cli.WizardDecision | shex/main.py:161-204 | the wizard cancels exactly when the stripped key is empty, or when "custom" has an empty stripped URL or model; otherwise it saves the `enable_context` answer |
| Cli.SetupConfigWizard | shex/main.py:137-211 | the wizard acts on the first accepted menu entry, and stops without a decision when the menu input ends |
| Cli.KeyNamesMatch | shex/main.py:119-134 | every model's `key_name` is the variable its key is written under: `DEEPSEEK_API_KEY` exactly for DeepSeek, `LLM_API_KEY` otherwise |
| Cli.HeadersSkipped | shex/main.py:191-195 | the header lines never hold a setting |
| Cli.EnvTextLines | shex/main.py:204 | the saved text splits back into the lines that were joined |
| Cli.EnvLinesSettings | shex/main.py:197-202 | each setting written is found again under its variable name |
| Cli.WizardSavesSettings | shex/main.py:166-204 | a saved `.env` text starts with the three header lines naming the chosen model's display name, and gives back the stripped key under the chosen model's `key_name`, and the URL and model (for "custom", the ones typed in) for every model but DeepSeek |
| Cli.LastLine | shex/main.py:54 | the last line a loop over the file yields: absent exactly for an empty file, otherwise a non-empty suffix that starts the file or follows a newline and has no newline before its last character |
| Cli.LineStart | shex/main.py:54 | the start of the last line is just after a newline, or at the beginning, with no newline up to the end |
| Cli.HistoryAppend | shex/main.py:47-63 | exactly `query + "\n"` is appended unless the file exists and its stripped last line is the query, in which case nothing is |
| Cli.SaveHistory | shex/main.py:43-63 | the new text is the old text followed by what `HistoryAppend` decides; a file of whole lines stays a file of whole lines |
| Cli.SavedLastLine | shex/main.py:47-63 | when the file holds whole lines (empty or ending in a newline) and the query is stripped and has no newline, after saving, the file's stripped last line is the query |
| Cli.SaveHistoryTwice | shex/main.py:47-63 | saving the same query twice in a row records it once |
| Cli.LastLineAppended | shex/main.py:54-63 | after whole lines, an appended line is the file's last line |

## Left out

- The chat-model client and its calls (`_call_llm`, client construction). A streamed response is an input sequence of chunks.
- The non-streaming branch of `run`. Its retry counting (shex/agent.py:276-284) is the same `RetryStep`, which the model shares.
- `json.loads` of tool arguments and `json.dumps` of results. Tool arguments arrive already parsed as `ToolArgs`, and a reply is a record, not JSON text.
- Two exceptions that escape `run` are not modelled. A chunk with an empty `choices` list raises `IndexError` at `chunk.choices[0]`, and `run` re-raises it; the model's chunk is the delta itself. Malformed tool-argument JSON raises out of `json.loads` in `_handle_tool_call`.
- Context files are given already read, as `ContextFile`.
- `json.load` failures and a missing file are both "no change". Saving writes nothing; the model only computes the list that would be written.
- `subprocess.Popen`, `process.wait`/`kill`, the reader threads and the real timeout. How the child ended is the `ProcessOutcome` parameter.
- Tools.CommandResultFor: does not reserve the codes -1, -2 and -3. A child killed by a signal can itself exit with a negative code.
- The Windows encoding choice, `errors='replace'` decoding and the text-mode universal-newline translation of the command pipes (`\r\n` and a lone `\r` read as `\n`, in the stored text and the echo alike) are not modelled. Pipe text is the already-translated string of characters `read(1)` yields.
- Spinner threads, `time.sleep`, float `time.time()` and the lock are not modelled. Time is an integer millisecond argument.
- Animation.Spinner.Spin: models the sequential reading, in which nothing changes `running` during the loop. In the threaded program `_spin` reads `running` outside the lock, so a frame can still be drawn after `stop`.
- `flush()` calls are not modelled.
- `argparse`, `input()` end-of-file exceptions, `print`, `sys.exit` and the i18n `t(...)` message lookups.
  - Prompts and messages are opaque.
  - An ended input is a `None` result.
- Python's Unicode `strip`, `lower` and `isdigit` are not modelled. Strip and lower are modelled on ASCII, plus the literal `是`/`否` answers.
- The history file's universal-newline translation on read is not modelled (a lone `\r` is not a line break here).
- History-file read errors, which the source ignores before appending, are not modelled.
- Cli.SaveHistoryTwice: holds only for a history of whole lines and a single-line query. On a file without a final newline the query is glued onto the last line, and a multi-line query never matches the last line, so the source records such a query again.
- Cli.WizardSavesSettings: requires the chosen table entry's display name, URL and model to be single-line. Every entry in `MODEL_OPTIONS` is, but that is not proved over the string literals.
- The wizard's in-place update of the shared "custom" entry of `MODEL_OPTIONS` is not modelled. Only one wizard run per process is modelled.
- `setup_language` is modelled only through its menu validation. The language table and `config.json` belong to `i18n.py` and `config.py`, which are not part of this model.
- `next_spinner_message` and the spinner start/stop calls around each model request are not modelled.
- `tc.index` is a natural number. A negative index from the server is not modelled.
- `publish.py` (release tooling) and the root `main.py` launcher are not modelled.
