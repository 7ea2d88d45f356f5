# Chat-completion relay: normaliser and fallback dispatcher

A Dafny model of the request pipeline of `chat_completions` in `Main.py`,
a small Flask relay in front of OpenRouter. The pipeline has three parts:

- **Normaliser** (lines 119-146). A body with `prompt` or `input` but no
  `messages` gains one user message. Message content given as a list of parts
  is flattened to one string. The requested model goes through
  `MODEL_ALIASES`, and `stream` is switched off.
- **Fallback plan** (lines 33-39, 151-155). The five entries of
  `FALLBACK_MODELS` are applied to `model_slug`. Empty candidates and
  candidates already tried are skipped.
- **Dispatcher** (lines 149-216). Each planned candidate gets up to three
  upstream calls:
  - a status below 400 is passed through, with a whitelist of headers;
  - a 404 that names a missing endpoint moves on to the next candidate;
  - a network failure is retried, and after the third attempt moves on;
  - 429/500/502/503/504 on the first two attempts is retried;
  - any other error answer is returned with its own status;
  - when every candidate is spent, the reply is a 404 carrying the last
    recorded error.

Modules, one per file:

- `text.dfy` (`Text`): the Python string built-ins the relay uses (`join`,
  `lower`, `in`, `str(int)`), and a `split` that the relay never calls. It
  exists only to state that `join` can be undone.
- `json.dfy` (`Json`): decoded JSON values, Python truthiness, a `dict` as an
  insertion-ordered association list (`Get`, `Set`), and `str`/`repr`.
- `aliases.dfy` (`Aliases`): `MODEL_ALIASES` and `MODEL_ALIASES.get(m, m)`.
- `normalizer.dfy` (`Normalizer`): the normalisation block. Pure functions
  say what each step yields, and methods run the step as the source does
  (in-place updates and loops). Each method is proved to follow its function.
- `dispatcher.dfy` (`Dispatcher`): the candidate list, the plan, and
  `Fallback`. `Fallback` describes the whole dispatch one upstream call at a
  time. The method `Dispatch` runs the source's two nested loops and is
  proved to give the same reply and the same calls as `Fallback`.
- `relay.dfy` (`Relay`): the POST branch end to end.

The upstream is an **oracle**: a sequence of `Outcome`s, one consumed per
call. An outcome is either a network failure or a response with status, body
text and headers. The key's presence and `DEFAULT_MODEL` are parameters.

In these places the code's behaviour may be surprising; the model follows
the code:

- `stream` is set to `false` unconditionally, whatever the client sent.
- A body with no usable prompt gets no default greeting. It simply has no
  `messages`.
- Only `prompt` and `input` are read, not `content`.
- A 429/5xx on the third attempt is not followed by the next candidate. The
  inner loop falls through to the "other errors" branch and returns that
  answer with its own status (`TransientOnThirdAttemptIsTerminal`).
- Any error answer that is neither a routing miss nor a retried transient
  status ends the dispatch. This includes a 404 without the routing phrases
  and statuses such as 501.
- Network failures that exhaust every candidate give a 404 carrying the
  failure message, not a 502/504.

## Model

| member | source | states |
|---|---|---|
| `Json.Get` | Main.py:126 | `d.get(k)` is present exactly when some binding has key `k`, and then it is that binding's value |
| `Json.Set` | Main.py:145-146 | `d[k] = v` binds `k` to `v`, leaves every other key's value alone, keeps an existing key in place and appends a new one |
| `Json.SetTwice` | Main.py:145-156 | assigning the same key twice leaves only the second value (used for `data["model"]` being reassigned per candidate) |
| `Json.SetSame` | Main.py:145-146 | storing the value a key already holds changes nothing |
| `Json.Truthy` | Main.py:126 | (definition) Python truthiness: `None`, `False`, `0`, a zero float, `""`, `[]` and `{}` are falsy, everything else truthy |
| `Json.Str` | Main.py:128 | `str()` of a string is the string itself; anything else gives its `repr` |
| `Json.Repr` | Main.py:128 | (definition) `repr()` as Python prints `None`, booleans, integers, floats, quoted strings, lists and dicts |
| `Text.SplitJoin` | Main.py:128 | `" ".join` of space-free pieces splits back into the same pieces |
| `Text.LowerSpec` | Main.py:186 | `lower()` keeps length, maps each character on its own and leaves no upper-case ASCII letter |
| `Aliases.TargetsAreCanonical` | Main.py:12-30 | no alias target is itself an alias key |
| `Aliases.Resolve` | Main.py:144 | `MODEL_ALIASES.get(m, m)`: an alias becomes its (different) target, any other value passes unchanged, and the result is never an alias |
| `Aliases.ResolveIdempotent` | Main.py:144 | resolving a resolved model changes nothing |
| `Aliases.ResolveKeepsTruthy` | Main.py:143-144 | a truthy requested model stays truthy after the alias lookup |
| `Normalizer.RequestData` | Main.py:119-122 | `get_json(silent=True) or {}`: an object body, the empty one included, becomes the request as is; no body, or any other (then falsy) value, gives `{}` |
| `Normalizer.BodyShaped` | Main.py:120-125 | (definition) the decoded bodies the block handles without raising: none, a falsy value, or an object |
| `Normalizer.PromptValue` | Main.py:126 | `prompt or input`: truthy exactly when one of the two is; `prompt` wins when truthy, and a truthy result is one of the two |
| `Normalizer.ItemStrings` | Main.py:128 | `map(str, txt)`: one string per item, a string item giving itself |
| `Normalizer.JoinedText` | Main.py:127-128 | the result is never a list: a list prompt becomes a string, empty for an empty list and truthy for two or more items; any other value stays |
| `Normalizer.UserMessage` | Main.py:130 | (definition) the message `{"role": "user", "content": text}`; `PromptBecomesOneUserMessage` states what the request gains |
| `Normalizer.PromptText` | Main.py:126-128 | (definition) `JoinedText` of `PromptValue`; `NoPromptNoMessages` and `PromptListRoundTrip` state its behaviour |
| `Normalizer.WithPromptMessages` | Main.py:125-130 | a body with `messages` is untouched; otherwise `messages` is added exactly when the prompt text is truthy; no other key changes; walkable messages stay walkable |
| `Normalizer.PartText` | Main.py:139-140 | a part yields no text exactly when it is a dict whose `text` is `None`; a string part yields itself; a dict without `text` yields `""` |
| `Normalizer.PartTexts` | Main.py:137-140 | the surviving part texts, never more than there are parts |
| `Normalizer.PartTextsKeepAll` | Main.py:140 | only `None` texts are dropped: when every part yields text, nothing is lost |
| `Normalizer.FlatContent` | Main.py:140 | (definition) the surviving part texts joined by single spaces; `StringPartTexts`, `FlatContentRoundTrip` and `FlatContentExample` state its behaviour |
| `Normalizer.FlattenMessage` | Main.py:135-140 | list content becomes the joined text of its parts; any other content and every other field stay |
| `Normalizer.PartShaped` | Main.py:138-140 | (definition) the parts handled without raising: a dict part's `text`, when present, is a string or `None` |
| `Normalizer.MessagesShaped` | Main.py:133-140 | (definition) the `messages` values the loop walks without raising: a list of dicts with shaped parts, or an empty string or dict |
| `Normalizer.FlattenMessages` | Main.py:134-140 | one message per message: each a dict with no list content left and every field but `content` kept; a message without list content is kept as it is |
| `Normalizer.WithFlatContent` | Main.py:133-140 | only a list of messages is rewritten, element-wise; every other key and the presence of `messages` are kept |
| `Normalizer.RequestedModel` | Main.py:143 | `model or DEFAULT_MODEL`: a truthy client model wins; the result is truthy when `DEFAULT_MODEL` is not empty, and never a list or dict for a request that passes `ModelOk` |
| `Normalizer.ModelOk` | Main.py:143-144 | (definition) a truthy requested model is hashable (not a list or dict), so the alias lookup does not raise |
| `Normalizer.Slug` | Main.py:143-144 | `model_slug` is never an alias, and is truthy since `DEFAULT_MODEL` is not empty |
| `Normalizer.Prepared` | Main.py:124-140 | the messages steps change only `messages`, which is present exactly when it was or the prompt text is truthy |
| `Normalizer.PreparedKeepsModel` | Main.py:124-143 | the messages steps leave `model` as the client sent it |
| `Normalizer.Normalized` | Main.py:124-146 | the outbound request has `stream` false, `model` the slug, the prepared messages, and every other key as received |
| `Normalizer.FlattenParts` | Main.py:137-140 | the parts loop yields the joined surviving texts |
| `Normalizer.FlattenOne` | Main.py:135-140 | one message rewritten as `FlattenMessage` says |
| `Normalizer.FlattenAll` | Main.py:134-140 | the message loop rewrites each slot as `FlattenMessages` says |
| `Normalizer.AddPromptMessages` | Main.py:125-130 | the prompt branch as `WithPromptMessages` says |
| `Normalizer.FlattenContent` | Main.py:133-140 | the flattening block as `WithFlatContent` says |
| `Normalizer.Normalize` | Main.py:119-146 | the in-place block yields `Normalized` of the decoded body and `model_slug` |
| `Normalizer.PromptBecomesOneUserMessage` | Main.py:125-130 | without `messages` and with a truthy prompt, the request leaves with exactly one message, role `user`, content the prompt's string |
| `Normalizer.NoPromptNoMessages` | Main.py:125-130 | without `messages`, prompt or input no message is invented |
| `Normalizer.PromptListRoundTrip` | Main.py:126-130 | a list prompt of space-free words (other than one empty word) yields a truthy text that splits on spaces back into the words |
| `Normalizer.StringPartTexts` | Main.py:137-140 | string parts contribute exactly their strings, in order |
| `Normalizer.FlatContentRoundTrip` | Main.py:137-140 | space-free string parts are joined so that splitting on spaces gives them back |
| `Normalizer.FlatContentExample` | Main.py:137-140 | `[{"text":"a"},"b"]` flattens to `"a b"`; a `None` text is dropped; a dict without `text` gives `""` |
| `Normalizer.FlattenMessageIdempotent` | Main.py:135-140 | flattening a flattened message changes nothing and leaves no list content |
| `Normalizer.FlattenMessagesIdempotent` | Main.py:133-140 | flattening a flattened message list changes nothing |
| `Normalizer.PreparedMessages` | Main.py:124-140 | the prepared messages are walkable, hold no list content, and flattening them again is a no-op |
| `Normalizer.NoListContentLeft` | Main.py:132-146 | no message of the outbound request still has list content |
| `Normalizer.PreparedIdempotent` | Main.py:124-140 | preparing a prepared request changes nothing |
| `Normalizer.PromptStepOfNormalized` | Main.py:125-130 | the prompt step adds nothing to an outbound request |
| `Normalizer.PromptStepKeeps` | Main.py:125-130 | a request with the same prompt and input as one with a falsy prompt text, or with messages, gains none |
| `Normalizer.FlatStepOfNormalized` | Main.py:133-140 | the flattening step leaves an outbound request unchanged |
| `Normalizer.PreparedOfNormalized` | Main.py:124-140 | both messages steps leave an outbound request unchanged |
| `Normalizer.NormalizeIdempotent` | Main.py:124-146 | normalising an outbound request again gives it back: the relay's output is in normal form |
| `Dispatcher.SelectedHeadersMembers` | Main.py:185-188 | the header loop copies exactly the upstream headers whose lower-cased name is whitelisted, and never more than were sent |
| `Dispatcher.SelectedHeaders` | Main.py:185-188 | (definition) the upstream headers whose lower-cased name is whitelisted, in their order; `SelectedHeadersMembers` states which |
| `Dispatcher.Transient` | Main.py:205 | (definition) the statuses 429, 500, 502, 503 and 504 |
| `Dispatcher.RoutingMiss` | Main.py:200 | (definition) a 404 whose lower-cased error text contains `no endpoints found` or `not found` |
| `Dispatcher.Retry` | Main.py:176-205 | (definition) a call tried again on the same candidate: a network failure or transient status on attempt 0 or 1 |
| `Dispatcher.Advances` | Main.py:179-202 | (definition) a call that gives its candidate up when not retried: a network failure or a routing miss |
| `Dispatcher.ErrorOf` | Main.py:175-195 | (definition) the `last_error_body` a failed call records: the network failure's message, or the upstream status and text |
| `Dispatcher.LastReply` | Main.py:182-211 | (definition) the reply when a call ends the dispatch: a success with its kept headers, an error answer with its own status, a spent network failure as a 404 |
| `Dispatcher.ExhaustedReply` | Main.py:213-216 | (definition) the 404 after every candidate: the last recorded error, or the fixed "no model available" body |
| `Dispatcher.CopyHeaders` | Main.py:185-188 | the header loop copies the whitelisted headers in order |
| `Dispatcher.Attempts` | Main.py:159-211 | one candidate's inner loop makes between one and three calls from its oracle position |
| `Dispatcher.Candidates` | Main.py:33-39 | five candidates: first the resolved slug, then four strings, of which the last three (the built-in models) are truthy |
| `Dispatcher.PlanFrom` | Main.py:151-155 | the plan from a position is no longer than the candidates left |
| `Dispatcher.PlanFromMembers` | Main.py:151-155 | the plan holds each truthy, untried candidate once, and nothing else |
| `Dispatcher.PlanMembers` | Main.py:151-155 | the plan lists every truthy candidate, each once, and nothing else |
| `Dispatcher.PlanFromOrder` | Main.py:151-155 | the plan from a position is a subsequence of the candidates from there: its entries come from strictly increasing positions |
| `Dispatcher.PlanOrder` | Main.py:151-155 | the plan keeps the order of `FALLBACK_MODELS`: it is a subsequence of the candidates |
| `Dispatcher.CandidatePlan` | Main.py:33-39 | the plan for `model_slug` has one to five candidates and always holds `deepseek/deepseek-chat` |
| `Dispatcher.GiveUpReply` | Main.py:213-216 | giving up on the last candidate answers a 404 with that call's error |
| `Dispatcher.Fallback` | Main.py:151-216 | (definition) the dispatch one upstream call at a time; the `Fallback...` lemmas below state its properties |
| `Dispatcher.DispatchRun` | Main.py:149-216 | (definition) `Fallback` from the first call on the whole plan; the `Dispatch...` lemmas state its properties |
| `Dispatcher.FallbackFirst` | Main.py:151-161 | the first call is on the current candidate and attempt |
| `Dispatcher.FallbackLength` | Main.py:149-216 | no call is made exactly when the plan is empty, and the oracle is never overrun |
| `Dispatcher.FallbackBound` | Main.py:159 | at most three calls per planned candidate |
| `Dispatcher.FallbackAttempts` | Main.py:159 | no call is made on a fourth attempt |
| `Dispatcher.FallbackPlan` | Main.py:151-156 | the candidates tried are a prefix of the plan, in plan order |
| `Dispatcher.FallbackExhausts` | Main.py:199-216 | when the last call gave its candidate up, every planned candidate was tried |
| `Dispatcher.FallbackLast` | Main.py:173-216 | the last call is not retried and its answer decides the reply |
| `Dispatcher.FallbackLastNoRetry` | Main.py:173-207 | the last call of a dispatch is not one that is retried |
| `Dispatcher.FallbackLastReply` | Main.py:181-216 | the reply of a dispatch is the one its last call decides |
| `Dispatcher.FallbackSteps` | Main.py:173-207 | after a retried call comes the same candidate's next attempt, after any other call a new candidate's first |
| `Dispatcher.DispatchShape` | Main.py:149-216 | one to three calls per planned candidate, the first on the plan's head, attempts below three, candidates a prefix of the plan |
| `Dispatcher.DispatchSteps` | Main.py:173-207 | consecutive calls follow the retry/advance rule of `Step` |
| `Dispatcher.DispatchLast` | Main.py:181-216 | the last call is not retried and its answer decides the reply |
| `Dispatcher.DispatchExhausts` | Main.py:199-216 | when the last call gives up its candidate, the whole plan was tried |
| `Dispatcher.FirstSuccessReturned` | Main.py:181-189 | no answer below 400 is passed over; the one that ends the dispatch is returned with its status, body and kept headers |
| `Dispatcher.ErrorReplies` | Main.py:191-216 | a final error answer is returned with its own status and body; a final routing miss or network failure means the plan was exhausted and the reply is a 404 with that error |
| `Dispatcher.NeverNoModelAvailable` | Main.py:213-216 | the fixed "no model available" body is never sent, since every given-up candidate records an error |
| `Dispatcher.AllRoutingMisses` | Main.py:199-202 | if every answer is a routing miss, each candidate is called exactly once, in order, and the 404 carries the last miss |
| `Dispatcher.TransientThenSuccess` | Main.py:204-207 | 503, 503, 200: the same candidate is called three times and the 200 is returned |
| `Dispatcher.TransientOnThirdAttemptIsTerminal` | Main.py:204-211 | three 429s: no fourth call, no next candidate; the third 429 is returned |
| `Dispatcher.ClientErrorIsTerminal` | Main.py:209-211 | a 400 on the first call is returned at once, after one call |
| `Dispatcher.AliasPlanExample` | Main.py:33-39 | for `gpt-4o-mini` with the default default model the duplicates collapse: chat, coder, r1 |
| `Dispatcher.NetworkFailuresAdvance` | Main.py:173-179 | three network failures give the candidate up; the duplicates are skipped and the next model's 200 is returned |
| `Dispatcher.AttemptsReturned` | Main.py:159-211 | an inner loop that returns ends the dispatch with its reply after its own calls |
| `Dispatcher.AttemptsAbandoned` | Main.py:159-211 | an inner loop that gives up hands the rest of the plan its recorded error, after its own calls |
| `Dispatcher.TryCandidate` | Main.py:159-211 | the inner loop sends the request once per call, ends as `Attempts` says, and records the error of a given-up candidate |
| `Dispatcher.PlanSkip` | Main.py:153-154 | an empty or already-tried candidate is skipped |
| `Dispatcher.PlanTry` | Main.py:153-155 | any other candidate is tried next and marked as tried |
| `Dispatcher.PendingReturned` | Main.py:159-211 | trying a candidate whose loop returns finishes the dispatch |
| `Dispatcher.PendingAbandoned` | Main.py:159-211 | trying a candidate that is given up leaves the rest of the plan pending with its error |
| `Dispatcher.CandidateStep` | Main.py:151-211 | trying the next candidate either ends the dispatch after its calls or leaves the rest of the plan pending with its error, over the outer loop's own variables |
| `Dispatcher.ModelSwap` | Main.py:156 | `data["model"] = candidate` gives the same request whichever candidate was set before |
| `Dispatcher.Dispatch` | Main.py:149-216 | the two nested loops give the reply of `DispatchRun` over the plan, and send, per call, the request with that call's candidate as `model` |
| `Relay.FirstCandidateIsSlug` | Main.py:143-155 | the first planned candidate is `model_slug` itself |
| `Relay.Payloads` | Main.py:156-170 | every payload is the outbound request with only `model` replaced: `stream` stays false |
| `Relay.ChatCompletions` | Main.py:113-216 | without a key: the 500 and no call; with one: at most fifteen calls, the first to `model_slug`, each payload the normalised request with `stream` false and `model` its candidate, and the dispatch's reply |

## Left out

- Flask routing, OPTIONS/GET answers, CORS headers, the root and tester pages and `app.run` (lines 41-111, 218-220): transport around the pipeline.
- `requests.post`, its URL, headers and 90-second timeout (lines 160-172): replaced by the oracle of outcomes; the `Authorization` key is only present or absent.
- The backoff sleeps (lines 177, 206): timing does not change which calls are made.
- Environment variables (lines 8-9): `OPENROUTER_KEY` is a `hasKey` flag and `DEFAULT_MODEL` a parameter, required non-empty as line 9 guarantees.
- `Dispatcher.TryCandidate`: the upstream error body is kept as its raw text (`Upstream(status, text)`), not parsed with `r.json()` and serialised again with `json.dumps` (lines 192-197, 210). The routing-miss test is made on the lower-cased raw text, so a JSON body whose phrase is only visible after decoding (for example written with `\u` escapes) is classified differently.
- `Dispatcher.Dispatch`: the exhaustion test `if not last_error_body` (line 214) is modelled as "no error recorded"; a falsy parsed error body such as `{}` is not distinguished from no error.
- `Dispatcher.Dispatch`: `FALLBACK_MODELS` is evaluated once up front (`Candidates`) and passed in; the lambdas are pure, so the values are those of line 152.
- `Dispatcher.Dispatch`: `candidate in tried` compares JSON values structurally, so the Python hash equality of `True` and `1` is not reproduced.
- `Relay.ChatCompletions`: when a key is present, bodies on which the source raises are excluded by `Acceptable`, not modelled as Flask's 500 page; without a key the body is never read, so any body is accepted. The excluded bodies are a truthy non-object body, `messages` that is not a list of dicts (or `""`/`{}`), a dict part whose `text` is neither a string nor `None`, and a truthy list or dict model (unhashable in line 144).
- `Relay.ChatCompletions`: the oracle must hold at least fifteen outcomes (five candidates, three calls each), which is never fewer than the calls made.
- `Normalizer.Normalize`: the messages of a request are treated as values. The source mutates the message dicts in place, which could be observed through aliasing to the decoded body; nothing else holds such an alias.
- `Json.Repr`: `repr` of strings uses the simple quoting rule without escaping control characters or backslashes. A float is kept only as whether it is zero and its `repr` text, not as a number.
- `Dispatcher.LastReply`: Flask's own `Content-Type: application/json` from `mimetype=` (lines 183, 210, 216) is not part of `Reply.headers`, which holds only the copied upstream headers; a copied upstream `Content-Type` replaces Flask's in the source.
- `Text.LowerSpec`: `lower()` folds ASCII letters only.
