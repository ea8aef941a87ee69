# Prometh Review — decision core in Dafny

Prometh Review is a command-line companion that reviews a pull request with a
large language model. It fetches the PR's metadata and commit range from Stash
(Bitbucket Server), computes the diff locally with `git`, builds a four-message
prompt, sends it to either the hosted OpenAI API or a self-hosted
chat-completion endpoint, and can then continue a question-and-answer session
about the PR.

This project models the pure decision logic of `prometh/prometh_cli.py`:

- **Provider dispatch** (`Llm`): a model name goes to the hosted backend exactly
  when it is one of four fixed strings. The hosted path alone needs
  `OPENAI_API_KEY` and alone reports usage metrics. The self-hosted path POSTs
  to `<llm_url>/v1/chat/completions` and reads `choices[0].message.content`.
- **Stash provider** (`Stash`): service selection, the token read, the REST
  addresses and headers, and `get_data`, which extracts the commit range, title,
  description (defaulting to `""`) and link from the two JSON replies.
- **git invocations** (`GitDiff`): the unfiltered name-status command; the
  unified-diff command with its `M`/`MA` filter, `-U<n>` context flag and
  exclude pathspecs; a parser that reads such a command back; the
  `"\n\n"`-joined diff text and the empty-diff guard.
- **Prompt** (`Prompt`): the four seed messages in the order system, user,
  user, user, followed by the assistant's review.
- **Interactive session** (`Session`): `exit` stops with the conversation
  unchanged. Any other input appends the question, re-sends the whole history,
  and appends the answer.

Supporting modules: `Wrappers` (`Option`, `Result`), `Text` (containment and
Python's decimal `str(int)` with its parse inverse), `Json` (decoded JSON and
Python subscripting, where a raised `KeyError`/`TypeError`/`IndexError` is
`None`), and `Chat` (roles, messages, and the well-formed shape of a review
conversation).

External effects are parameters. The environment entries are `Option<string>`
arguments. The HTTP replies are `Json` values. The two LLM services are total
functions in a `Services` record, from what is sent to either the reply or
the message of the exception the call raised. git's
outputs are string arguments.

## Model

| member | source | states |
|---|---|---|
| Llm.SelectBackend | prometh/prometh_cli.py:14-19 | the hosted backend is chosen iff the name is exactly one of gpt-3.5-turbo, gpt-3.5-turbo-16k, gpt-3.5-turbo-0301, gpt-4 |
| Llm.DispatchExamples | prometh/prometh_cli.py:145-153 | gpt-4 and gpt-3.5-turbo-16k are hosted; gpt-4-32k, GPT-4 and llama-local are self-hosted (no prefix or case folding) |
| Llm.CompletionsUrl | prometh/prometh_cli.py:156 | the self-hosted address is exactly the configured URL (or `None` when unset) followed by `/v1/chat/completions` |
| Llm.GenerateResponse | prometh/prometh_cli.py:141-163 | hosted: fails with ApiKeyMissing when the key is unset, otherwise fails with the client's error when the client raises and else returns its content and (possibly absent) usage; self-hosted: fails with the POST's error when it raises, fails as malformed unless the reply has a string at choices[0].message.content, else returns exactly that string with no usage; usage present only for hosted names |
| Llm.SelfHostedRequest | prometh/prometh_cli.py:156-159 | the self-hosted POST goes to the completions address of the configured URL and carries the model name and the conversation unchanged |
| Llm.ApiKeyIrrelevantForSelfHosted | prometh/prometh_cli.py:145-161 | for a self-hosted model the result does not depend on whether OPENAI_API_KEY is set |
| Stash.SelectProvider | prometh/prometh_cli.py:248-256 | stash and bitbucket get the Stash provider; github and every other service fail as not implemented, with the source's messages |
| Stash.NewStashApi | prometh/prometh_cli.py:90-97 | construction fails iff STASH_HTTP_ACCESS_TOKEN is absent; otherwise the client keeps the token and the PR coordinates |
| Stash.Headers | prometh/prometh_cli.py:99 | two headers: a bearer authorisation carrying exactly the token, and a JSON Accept |
| Stash.InfoUrl | prometh/prometh_cli.py:102-106 | the metadata address is the fixed pull-requests prefix followed by the decimal PR id |
| Stash.DiffUrl | prometh/prometh_cli.py:108-112 | the diff address is the metadata address followed by `/diff` |
| Stash.InfoUrlDistinguishesPullRequests | prometh/prometh_cli.py:103-109 | clients that differ only in PR id address different metadata and diff URLs |
| Stash.GetData | prometh/prometh_cli.py:114-138 | succeeds iff toHash, fromHash, title and links.self[0].href are all present; fields are returned verbatim; description is the given value or `""`; the error names the first missing field in the order toHash, fromHash, title, link |
| Json.LookupAppend | prometh/prometh_cli.py:130 | a chain of subscripts such as `["links"]["self"][0]["href"]` fails exactly at its first failing part and otherwise continues from the value reached |
| Stash.DescriptionIsOptional | prometh/prometh_cli.py:124-128 | adding or removing the description never changes success; without it the description is `""`, with it the given value |
| GitDiff.NameStatusCommand | prometh/prometh_cli.py:276 | exactly `git diff --name-status <from> <to>`: no filter, context or exclude setting, only the two commits |
| GitDiff.DiffFilter | prometh/prometh_cli.py:279-282 | the filter always selects M, selects A iff exhaustive, contains nothing else and repeats nothing |
| GitDiff.ExcludeSpec | prometh/prometh_cli.py:289 | an exclude pathspec is `:(exclude)*` followed by exactly the file type |
| GitDiff.ModifiedCommand | prometh/prometh_cli.py:284-289 | six fixed arguments, then `-- .` and one pathspec per excluded type in input order when there are any; length 6 or 8+k; parsing the command gives back the commits and settings |
| GitDiff.ComposeDiff | prometh/prometh_cli.py:297 | the diff text is the name-status output, a blank line, then the modified-files output |
| GitDiff.CheckDiff | prometh/prometh_cli.py:304-305 | the guard rejects exactly the empty diff text |
| GitDiff.NoDiffGuardUnreachable | prometh/prometh_cli.py:294-305 | a composed diff always passes the guard, even when both git outputs are empty |
| Text.ParseIntToString | prometh/prometh_cli.py:284 | the decimal rendering used for `-U<n>` and the PR id is inverted by parsing, for negative numbers too |
| Prompt.DescriptionMessage | prometh/prometh_cli.py:194-199 | the description message contains both the title and the description |
| Prompt.DiffMessage | prometh/prometh_cli.py:203-206 | the diff message contains the diff text |
| Prompt.SeedMessages | prometh/prometh_cli.py:212-224 | exactly four messages with roles system, user, user, user; fixed instructions first and last; title, description and diff in messages two and three |
| Prompt.AnalyzePr | prometh/prometh_cli.py:226-234 | succeeds iff the backend call on the seed does, failing with its error; on success the returned review and usage are the backend's reply, and the five messages are the seed followed by that reply as the assistant's turn; the conversation is well-formed |
| Session.Turn | prometh/prometh_cli.py:333-339 | `exit` stops; otherwise the question is appended and the history sent; the turn fails exactly when that call fails, with its error, and otherwise appends the backend's reply, keeping earlier messages |
| Session.TurnPreservesWellFormed | prometh/prometh_cli.py:337-339 | a completed turn keeps the conversation a review followed by alternating user and assistant messages |
| Session.ExtendsByTurn | prometh/prometh_cli.py:337-339 | one more completed turn extends the history without changing any earlier message |
| Session.Converse | prometh/prometh_cli.py:332-340 | the loop only appends: 2 messages per turn, question i is input i, answers reply to the whole history; it aborts only when the backend call on the history ending in the current question fails, with that error; an initial exit leaves the conversation unchanged; well-formedness is kept |

## Left out

- HTTP requests to Stash and to the self-hosted endpoint, and the OpenAI client call, are network I/O. Their outcomes are inputs: `Json` values for Stash, and for the LLM services either a reply or the message of the exception raised. Which exception arises, and when, is up to those inputs.
- `subprocess.check_output` is not modelled. Only the argument lists it receives are built, and its outputs are string arguments. What git does with the filter and exclude pathspecs is outside the model.
- Console tables, Markdown rendering, console input, argparse, the `~/.promethrc.json` defaults and the missing-setting checks in `get_args` are UI and configuration plumbing.
- The `--show-prompt` printing, the `--show-diff-only` early exit and the informational message printed when the modified-files diff is empty only print.
- The fixed `temperature` 0.7 and the fixed `Content-Type: application/json` header of the self-hosted request are constants. `ChatRequest` omits them.
- The `None` check after reading `STASH_HTTP_ACCESS_TOKEN` is dead code, because the environment lookup raises first. Absence is modelled as that raise (`TokenMissing`).
- The interactive call omits `llm_url`, so in Python every non-`exit` turn raises a missing-argument error. `Session.Turn` models the intended call, with the configured URL.
- Session.Converse: the end of input stands for a keyboard interrupt. A failed request ends the session (`Aborted`), and the process exit codes are not represented.
- Llm.GenerateResponse: a self-hosted reply whose `content` is present but is not a JSON string is treated as malformed. Python would pass that value through unchanged. The hosted client's content is taken to be a string; the SDK's nullable content is not modelled.
- Prompt.AnalyzePr: it takes title and description as strings. The f-string rendering of non-string JSON values from `get_data` (numbers, lists, `null`) is not modelled.
- An empty conversation is not rejected before it is sent. The code has no such check, so the model has none either.
- The code never inspects HTTP status codes. A rejected Stash request shows up only as a missing field in `get_data` (`MissingField`).
- Json: JSON numbers are integers; floating-point numbers are not represented.
- `test.py`, `test2.py` and `setup.py` are a one-off request script, a prototype that does not run, and packaging. None adds logic beyond the CLI.
