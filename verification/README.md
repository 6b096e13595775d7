# Cross-role translator: completion client and response defaulting, in Dafny

The service takes a message plus a source role and a target role, asks a chat
model to classify the scene, rewrite the message for the target role, list
missing information and risks, and suggest a reply, and returns the answer as a
strictly validated response record. This project models the core of
`graph.py` and the records of `schemas.py`:

- **Fence cleaning** (`fence.dfy`, on top of `text.dfy`): the completion text
  is read as `""` when it is `None`, stripped of whitespace, and, when it
  starts with three backticks, stripped of every leading and trailing backtick
  and then of a leading `json` tag with the whitespace after it.
- **Call, then repair** (`completion.dfy`): `_call_llm` sends the system prompt,
  the few-shot example and the user message; decodes the cleaned answer; and on
  a decode failure sends ONE repair call whose answer is cleaned and decoded the
  same way. The completion service is a function parameter `complete` from a
  call to its reply, and `json.loads` is a function parameter `parse`. The
  result is a trace: the calls made, in order, and the outcome.
- **Defaulting map** (`pipeline.dfy`): `run_translation` maps the decoded value
  into a `TranslateResponse`, with Python's truthiness, `dict.get` defaults and
  `or` fallbacks written out (`pyjson.dfy`), and is checked against a
  reference description (`Conforms`, `ItemAgrees`) stated key by key.
- **Records and validation** (`schemas.dfy`): `RoleType`,
  `InfoCompletionItem`, `TranslateRequest` and `TranslateResponse` as
  datatypes, with the field checks pydantic applies (string fields take only
  JSON strings, literal fields only their listed values, defaults only where
  declared) and JSON round trips.

Failures are values: `Upstream` (the completion client raised), `ParseError`
(`JSONDecodeError` after the repair), `TypeMismatch` (an `AttributeError` or
`TypeError` from `.get` or iteration on the wrong kind of value) and
`Invalid` (a pydantic `ValidationError`).

Three behaviours of the code worth noting:

- The repair call receives the CLEANED first answer, not the raw one.
- The defaults for `detected_scene`, `translated_message` and
  `suggestion_for_source` apply only to an absent key. An explicit `null` is
  kept and fails validation, while `null` lists become empty.
- Fenced and unfenced answers decode alike only for a decoder that ignores
  surrounding JSON whitespace. `json.loads` does, and `WrappedParsesAsPayload`
  takes that as its hypothesis.

## Model

| member | source | states |
|---|---|---|
| PyJson.Truthy | cross-role-translator-server/app/graph.py:119 | no contract; transcribes Python's `bool()` on a decoded value: `None`, `False`, zero and empty strings, lists and dicts are false |
| PyJson.FalsyValues | cross-role-translator-server/app/graph.py:119 | the false-like decoded values are exactly `None`, `False`, `0`, `""`, `[]` and `{}` |
| PyJson.Or | cross-role-translator-server/app/graph.py:129-133 | no contract; transcribes Python's `x or y`: `x` when true-like, else `y` |
| PyJson.OrLaws | cross-role-translator-server/app/graph.py:129-133 | `x or y` is the first operand when that one is true-like and the second otherwise, so `None or ""` is `""`; it is true-like exactly when either operand is, and applying `or y` twice changes nothing |
| PyJson.Get | cross-role-translator-server/app/graph.py:123-134 | no contract; transcribes `dict.get(key, default)`: the stored value when the key is present, else the default |
| PyJson.GetLaws | cross-role-translator-server/app/graph.py:123-134 | `get` agrees with key lookup falling back to the default, and keeps an explicit `null` stored under the key |
| Text.IsSpace | cross-role-translator-server/app/graph.py:57 | no contract; transcribes CPython's `str.isspace` set, the characters argument-less `strip()` and `lstrip()` remove (tab to carriage return, U+001C to space, U+0085, U+00A0, U+1680, U+2000 to U+200A, U+2028, U+2029, U+202F, U+205F, U+3000) |
| Text.TrimStart | cross-role-translator-server/app/graph.py:62 | `lstrip` returns a suffix of its input; everything it removed is in the class; the result does not start with a class character |
| Text.TrimEnd | cross-role-translator-server/app/graph.py:57 | `rstrip` returns a prefix; everything removed is in the class; the result does not end with a class character |
| Text.Strip | cross-role-translator-server/app/graph.py:57-60 | `strip` leaves one contiguous run of its input whose first and last characters lie outside the class |
| Text.StripExact | cross-role-translator-server/app/graph.py:57-60 | `strip` on a text made of a run of class characters, a core whose ends lie outside the class, and another run returns exactly the core |
| Fence.Clean | cross-role-translator-server/app/graph.py:56-62 | cleaning only removes characters at the two ends: the result is one contiguous run of the content (a missing content reads as "") |
| Fence.Unfence | cross-role-translator-server/app/graph.py:59-62 | the fence branch leaves a contiguous run of the stripped text that never ends with a backtick |
| Fence.DropTag | cross-role-translator-server/app/graph.py:61-62 | dropping the `json` tag leaves exactly the final run of the text after the tag and the whitespace following it: a suffix, everything between tag and suffix is whitespace, and the suffix does not start with whitespace |
| Fence.CleanMissingContent | cross-role-translator-server/app/graph.py:56 | a `None` message content is cleaned like the empty string, to the empty string |
| Fence.CleanFenced | cross-role-translator-server/app/graph.py:56-62 | a text made of a whitespace run, a core that starts with three backticks and does not end with whitespace, and another whitespace run is cleaned to `Unfence` of that core; every text taking the fence branch splits this way, so this ties `UnfencePlain` and `UnfenceJson` to `Clean` |
| Fence.CleanUnfenced | cross-role-translator-server/app/graph.py:56-59 | a text that does not start with three backticks once stripped comes back stripped of outer whitespace and otherwise unchanged |
| Fence.UnfencePlain | cross-role-translator-server/app/graph.py:59-60 | in the fence branch, every backtick at either end is removed (not only three); the text between is returned untouched when it does not start with `json` |
| Fence.UnfenceJson | cross-role-translator-server/app/graph.py:59-62 | in the fence branch, a `json` tag right after the backticks is removed with all whitespace following it; trailing whitespace before the closing fence stays |
| Fence.CleanFencedEnd | cross-role-translator-server/app/graph.py:59-62 | whenever the fence branch is taken, the cleaned text does not end with a backtick |
| Fence.WrapJsonRoundTrip | cross-role-translator-server/app/graph.py:57-62 | a non-empty payload not starting with whitespace, wrapped in a json fence with newlines, is returned followed by exactly one newline |
| Fence.WrapPlainRoundTrip | cross-role-translator-server/app/graph.py:57-62 | any payload wrapped in a bare fence with newlines is returned between those two newlines |
| Fence.WrappedParsesAsPayload | cross-role-translator-server/app/graph.py:57-65 | for a decoder that ignores surrounding JSON whitespace, both wrapped forms decode exactly as the bare payload |
| Fence.CleanNotIdempotent | cross-role-translator-server/app/graph.py:57-62 | cleaning is not idempotent: a second cleaning of a bare-fence result removes the newlines the first left |
| Fence.CleanKeepsInnerBacktick | cross-role-translator-server/app/graph.py:59-62 | a cleaned text can start with a backtick: inner backticks after the tag survive |
| Completion.UserMessage | cross-role-translator-server/app/graph.py:36-42 | no contract; the definition is the f-string of graph.py:36-42 character for character, and `Completion.UserMessageInjective` shows it keeps the three fields apart |
| Completion.TranslateCall | cross-role-translator-server/app/graph.py:44-54 | no contract; `Completion.CallLlm` states it is always the first call |
| Completion.RepairCall | cross-role-translator-server/app/graph.py:69-80 | no contract; `Completion.CallLlm` states it is the second call, made on the cleaned first answer |
| Completion.CallLlm | cross-role-translator-server/app/graph.py:34-87 | one or two calls; the first is the translation call; a second happens exactly when the first reply arrived and its cleaned text did not decode, and it is the repair call on that cleaned text; the outcome is decided by the last reply alone (service error, decoded value, or a decode error only after the repair) |
| Completion.CallLlmOnlyAsksItsCalls | cross-role-translator-server/app/graph.py:50-87 | two services that agree on the calls in the trace give the same trace, so no call beyond them is ever made |
| Completion.FirstDecodeWins | cross-role-translator-server/app/graph.py:50-66 | a first answer whose cleaned text decodes is returned unchanged after exactly one call |
| Completion.UserMessageInjective | cross-role-translator-server/app/graph.py:36-42 | the user message determines source role, target role and content: different requests never share a message |
| Schemas.ParseRole | cross-role-translator-server/app/schemas.py:5-11 | a string is a role exactly when it is one of the five role names, and then it denotes that role |
| Schemas.ParseStatus | cross-role-translator-server/app/schemas.py:16 | a string is a status exactly when it is one of the two status texts |
| Schemas.RoleField | cross-role-translator-server/app/schemas.py:21-22 | a role field is accepted exactly when present and a role name |
| Schemas.StatusField | cross-role-translator-server/app/schemas.py:16 | a status field is accepted exactly when present and one of the two status texts, and then denotes that status |
| Schemas.StrField | cross-role-translator-server/app/schemas.py:15 | a required `str` field is accepted exactly when present and a JSON string, and keeps that string |
| Schemas.StrListField | cross-role-translator-server/app/schemas.py:30 | a `List[str]` field is accepted exactly when it is an array of strings, kept in order and length |
| Schemas.NewInfoItem | cross-role-translator-server/app/schemas.py:14-17 | an item builds exactly when `item` is a string, `status` one of the two texts and `suggested_value` omitted or a string; an omitted `suggested_value` is "" |
| Schemas.ItemFromJson | cross-role-translator-server/app/schemas.py:14-17 | no contract; specified by `Schemas.ItemRoundTrip`, `Schemas.SuggestedValueDefaults` and `Schemas.StatusMustBeLiteral` |
| Schemas.ItemListField | cross-role-translator-server/app/schemas.py:29 | a list of items is accepted exactly when it is an array whose every entry validates, and then keeps length and order |
| Schemas.NewResponse | cross-role-translator-server/app/schemas.py:26-31 | a response is built with all five fields exactly when each field checks, and otherwise not at all |
| Schemas.ResponseFromJson | cross-role-translator-server/app/schemas.py:26-31 | no contract; specified by `Schemas.ResponseRoundTrip` and `Schemas.ResponseFieldsRequired` |
| Schemas.RequestFromJson | cross-role-translator-server/app/schemas.py:20-23 | a request is accepted exactly when the body is an object with both role names and a string content, any other keys ignored |
| Schemas.RequestRoundTrip | cross-role-translator-server/app/schemas.py:20-23 | a serialised request validates back to itself |
| Schemas.EmptyContentAccepted | cross-role-translator-server/app/schemas.py:20-23 | any request object with two role names and `""` as content is accepted, with empty content, whatever other keys it holds |
| Schemas.UnknownRoleRejected | cross-role-translator-server/app/schemas.py:21-22 | a source or target role that is not a role name makes the request invalid |
| Schemas.ItemRoundTrip | cross-role-translator-server/app/schemas.py:14-17 | a serialised item validates back to itself |
| Schemas.SuggestedValueDefaults | cross-role-translator-server/app/schemas.py:17 | an item without `suggested_value` gets "" |
| Schemas.StatusMustBeLiteral | cross-role-translator-server/app/schemas.py:16 | an item only builds when its status is present and one of the two texts |
| Schemas.StrArray | cross-role-translator-server/app/schemas.py:30 | a list of strings serialised as a JSON array validates back to the same list |
| Schemas.ItemArray | cross-role-translator-server/app/schemas.py:29 | a list of items serialised as a JSON array validates back to the same list |
| Schemas.ItemsRoundTrip | cross-role-translator-server/app/schemas.py:29 | the element-wise proof of that: every serialised item validates back to itself, so the whole array does |
| Schemas.ResponseRoundTrip | cross-role-translator-server/app/schemas.py:26-31 | a serialised response validates back to itself |
| Schemas.ResponseFieldsRequired | cross-role-translator-server/app/schemas.py:26-31 | a response object missing any one of the five keys does not validate |
| Wrappers.MapAll | cross-role-translator-server/app/graph.py:125-132 | the comprehension over entries succeeds exactly when every entry does, keeping order and length, and otherwise fails with the first entry's error |
| Pipeline.DefaultItem | cross-role-translator-server/app/graph.py:126-130 | an entry becomes an item exactly when it conforms to the reference description, and the item agrees with the entry; a non-object entry has no `.get` |
| Pipeline.DefaultMap | cross-role-translator-server/app/graph.py:119-135 | the pass succeeds exactly on false-like values and on objects that conform to the reference description; a true-like non-object fails with a type error |
| Pipeline.DefaultEntries | cross-role-translator-server/app/graph.py:125-132 | the items are built exactly when `info_completion` is absent, false-like, or an array whose every entry conforms |
| Pipeline.FalsyResultIsAllDefaults | cross-role-translator-server/app/graph.py:119-135 | a false-like decoded value (None, {}, [], 0, "", false) yields the all-defaults response with scene "其他" |
| Pipeline.TruthyNonObjectFails | cross-role-translator-server/app/graph.py:119-123 | a true-like decoded value that is not an object fails with a type error |
| Pipeline.DefaultMapSucceedsIff | cross-role-translator-server/app/graph.py:119-135 | the pass succeeds on an object exactly when the object conforms to the reference description, in both directions |
| Pipeline.DefaultMapFields | cross-role-translator-server/app/graph.py:122-135 | on success, present strings are copied, absent ones take their defaults, false-like lists become empty, and info items keep the length and order of the entries and agree with them |
| Pipeline.NullStringFieldFails | cross-role-translator-server/app/graph.py:123-134 | an explicit null scene, message or suggestion is not replaced by the default and makes the pass fail |
| Pipeline.FalsyListIsAbsent | cross-role-translator-server/app/graph.py:131-133 | a null or otherwise false-like `info_completion` or `risk_alerts` behaves exactly like an absent key |
| Pipeline.StrictlyValidPassesUnchanged | cross-role-translator-server/app/graph.py:119-135 | whatever strict response validation accepts from an object, the defaulting pass returns unchanged |
| Pipeline.WellFormedMapsToItself | cross-role-translator-server/app/graph.py:119-135 | a well-formed response object maps to exactly that response |
| Pipeline.Translate | cross-role-translator-server/app/graph.py:110-119 | the pipeline makes one or two calls |
| Pipeline.TranslateFirstDecodes | cross-role-translator-server/app/graph.py:110-135 | a first answer decoding to any value, partial or not, takes one call, and that value goes through the defaulting pass |
| Pipeline.TranslateUpstream | cross-role-translator-server/app/graph.py:50-54 | a service failure on the first call ends the pipeline with `Upstream` after that call, with no repair |
| Pipeline.TranslateRepairUpstream | cross-role-translator-server/app/graph.py:76-80 | a service failure on the repair call ends the pipeline with `Upstream` after both calls |
| Pipeline.TranslateVerbatim | cross-role-translator-server/app/graph.py:50-66 | a first answer decoding to a well-formed response yields that response after one call |
| Pipeline.TranslateFenced | cross-role-translator-server/app/graph.py:56-66 | the same holds for an answer wrapped in a json fence, under a whitespace-insensitive decoder |
| Pipeline.TranslateRepaired | cross-role-translator-server/app/graph.py:67-87 | after an undecodable first answer, the repair call gets the cleaned text and the repaired value is what gets defaulted |
| Pipeline.TranslateBothUndecodable | cross-role-translator-server/app/graph.py:81-87 | when neither answer decodes, the pipeline fails with a decode error after exactly two calls and builds no response |

## Left out

- `main.py`: FastAPI routing, the CORS middleware and `/health` are HTTP plumbing. Request validation itself is modelled by `Schemas.RequestFromJson`.
- Loading `.env` and the fatal missing-key check (graph.py lines 14-18): configuration I/O.
- The Ark client and the network calls (graph.py lines 20-23, 50-54, 76-80): replaced by the `complete` parameter. The model identifier and the temperatures 0.3 and 0.0 are recorded in the calls, and nothing is proved about them.
- A reply with no choices (an `IndexError` on `choices[0]`): not modelled. `Reply` always carries the first choice's content.
- The LangGraph `StateGraph` and `translate_node` (graph.py lines 90-107): one node, modelled as plain composition in `Pipeline.Translate`.
- The internals of `json.loads`: `parse` is uninterpreted. Duplicate keys, NaN and Infinity are not modelled. Numbers are `real`, so int and float are not distinguished.
- The prompt texts of `prompts.py`: that file is not part of this model, and the texts are the `Prompts` parameter.
- Pydantic coercions beyond "string fields take only strings, literals must match". Examples are the number-to-string coercion of older pydantic versions, and error messages.
- Python's `AttributeError` and `TypeError` are merged into `TypeMismatch`. Pydantic error details are merged into `Invalid`.
- Pipeline.Translate: its own contract only bounds the number of calls. The end-to-end behaviour is stated by lemmas for each path: a first answer that decodes (`TranslateFirstDecodes`, and `TranslateVerbatim` and `TranslateFenced` for well-formed ones), a repaired answer (`TranslateRepaired`), two undecodable answers (`TranslateBothUndecodable`), and a service failure on either call (`TranslateUpstream`, `TranslateRepairUpstream`).
