# NyaManga core in Dafny

NyaManga localizes manga panels through an OpenAI-compatible HTTP service
(ephone.chat by default). This project models the library core under
`nyamanga/`. It has four parts:

- **Configuration** (`config.py`): `ApiConfig`, its dataclass defaults, and
  `ApiConfig.from_env`. The API key comes from three environment variables in
  priority order. `from_env` has its own defaults for the models and the
  timeout, and it parses the timeout as a float.
- **Client** (`client.py`): `NyaMangaClient`, covering:
  - the endpoint URLs, built from a base URL with its trailing slashes removed;
  - the session's `Authorization: Bearer <key>` header;
  - the chat, image-edit and image-generation payloads, with `**extra` merged last;
  - the files an image edit opens and closes;
  - `_handle_response`, which classifies a reply as an `ApiError` (status 300
    or above), `{}` (empty body), the decoded JSON, or `{"data": <bytes>}`.
- **Embedder** (`embedder.py`): `MangaEmbedder`, covering:
  - the prompts it builds;
  - the requests it hands to the client;
  - how `_first_message_content` and `_first_b64_image` unwrap replies. Both
    follow Python truthiness, `dict.get` and indexing exactly.
- **Pipeline** (`pipeline.py`): `TypesettingPipeline`. With a non-empty
  source text it runs two steps: rewrite the dialogue, then embed the
  rewritten text. Otherwise it makes one auto-localize call. It then
  assembles a `PanelResult`.

The outside world is modelled as constants and parameters:

- the remote service is a function from (index of the POST in the session,
  request) to an outcome, either a reply or a raised transport error;
- `open(path, "rb")` is a predicate saying whether the open succeeds;
- what `resp.json()` decodes a body to is a field of the reply;
- `float()` on the timeout string is a parameter of `FromEnv`.

Every Python exception the core raises is an `Err` of one `Error` datatype
(`errors.dfy`). The client, which Python mutates, is a Dafny `class` whose
fields are the log of sent requests, the set of open file handles, the next
handle and the closed flag. The embedder is a class too, but Python never
changes it: its ghost trace of calls is a modelling device that lets the
pipeline's contracts say which embedder calls were made, in which order.
The pipeline's contracts also pin the client's session (its request log and
next handle, a `Session` value): which requests each step posted, and that
each recorded result is what the service answered to its own request.

Each method is proved against the specification functions beside it.

Modules: `Wrappers` (Option, Result), `Errors`, `Json` (JSON values plus raw
bytes, truthiness, `dict.get`, `or`), `Text` (str.strip, rstrip, decimal
numerals), `Config`, `Client`, `Embedder`, `Pipeline`.

## Model

| member | source | states |
|---|---|---|
| Config.NewApiConfig | nyamanga/config.py:9-15 | `ApiConfig(api_key=k)` keeps the key and takes base URL `https://api.ephone.chat/v1`, chat and image model `nano-banana-2`, and timeout 120.0 |
| Config.GetOr | nyamanga/config.py:37-39 | `os.environ.get(name, default)` gives the variable's value whenever it is set, even to "", and the default only when it is unset |
| Config.FirstKey | nyamanga/config.py:29-33 | the `or`-chain over key variables is None exactly when no variable is set non-empty; otherwise it is the value of the first non-empty one, and every earlier one is unset or empty |
| Config.Timeout | nyamanga/config.py:40-41 | an absent or empty timeout variable gives 30.0; a parsable one gives the parsed value; an unparsable one raises with the raw text |
| Config.FromEnv | nyamanga/config.py:17-48 | it raises the missing-key ValueError exactly when none of the three key variables is non-empty; every config it returns has a non-empty key; base URL, chat model and image model come from their variables with defaults (the image model defaults to `gpt-image-1`), and the timeout matches `Timeout`; with a key present it succeeds exactly when the timeout parses |
| Config.KeyPriority | nyamanga/config.py:29-33 | NYAMANGA_API_KEY wins over EPHONE_API_KEY, which wins over OPENAI_API_KEY; a variable set to "" is skipped |
| Config.FromEnvDefaultsDifferFromDataclass | nyamanga/config.py:12-15 | with only a key set, from_env gives image model `gpt-image-1` and timeout 30.0, unlike the dataclass defaults `nano-banana-2` and 120.0 |
| Text.OrElse | nyamanga/client.py:37 | `x or default` on an optional string: the value when it is Some and non-empty, else the default |
| Text.TrimStartWhile | nyamanga/embedder.py:134 | the result is a suffix of the input with no leading character satisfying p, and everything dropped satisfies p |
| Text.TrimEndWhile | nyamanga/embedder.py:134 | the result is a prefix of the input with no trailing character satisfying p, and everything dropped satisfies p |
| Text.TrimStartWhileExact | nyamanga/embedder.py:134 | trimming a run of p-characters off a string that does not start with one gives back exactly that string |
| Text.TrimEndWhileExact | nyamanga/embedder.py:134 | the same at the end of the string |
| Text.Strip | nyamanga/embedder.py:134 | `str.strip()` gives a substring with no whitespace (Python's `isspace` set) at either end, and only whitespace is cut on either side |
| Text.StripIdempotent | nyamanga/embedder.py:134 | stripping twice is stripping once |
| Text.StripSurrounded | nyamanga/embedder.py:134 | stripping whitespace-padded text whose own ends are not whitespace gives back exactly that text |
| Text.TrimBothIsSlice | nyamanga/embedder.py:134 | trimming a run of p-characters at each end leaves a slice of the input that neither starts nor ends with one, with only p-characters cut on either side |
| Text.RStrip | nyamanga/client.py:35 | `rstrip('/')` gives a prefix that does not end in the character, and everything removed is that character |
| Text.RStripIgnoresTrailing | nyamanga/client.py:35 | any number of extra trailing copies of the character make no difference to `rstrip` |
| Text.Decimal | nyamanga/client.py:122 | the decimal numeral of a status code is non-empty, all digits, and has no leading zero |
| Text.DecimalRoundTrip | nyamanga/client.py:122 | reading the numeral back gives the number |
| Text.LeadingDigits | nyamanga/client.py:122 | the longest prefix made only of digits |
| Text.LeadingDigitsOfNumeral | nyamanga/client.py:122 | a numeral followed by text that starts with a non-digit is exactly the numeral's leading digits |
| Json.GetOrNull | nyamanga/embedder.py:130 | `dict.get(key)` is the stored value when the key is present, else None |
| Json.Or | nyamanga/embedder.py:130 | Python `a or b`: a when a is truthy, else b |
| Client.Endpoint | nyamanga/client.py:35 | the URL ends with the path; what precedes it is the base URL with exactly its trailing slashes removed |
| Client.EndpointIgnoresTrailingSlashes | nyamanga/client.py:35 | however many slashes end the base URL, every endpoint URL is the same |
| Client.Authorization | nyamanga/client.py:23 | the header value is "Bearer ", then the key, whole |
| Client.AuthorizationIsBearerCredentials | nyamanga/client.py:23 | the header is well-formed bearer credentials (section 2.1 of RFC 6750) exactly when the key, after its leading spaces, is a b64token; this holds whenever the key itself is a b64token; the key reads back whole from the header |
| Client.MessagesJson | nyamanga/client.py:38 | the messages are sent as a JSON list of role and content objects, one per message, in order |
| Client.ChatPayload | nyamanga/client.py:36-45 | the chat body has model, messages and stream always; temperature and top_p exactly when not None (0.0 is sent); and every extra key. Extra values win; otherwise model is `model or chat_model` and the rest are the arguments |
| Client.ImageFields | nyamanga/client.py:70-75 | the edit form fields and generation body: prompt, model (`model or image_model`) and response_format, plus every extra key, with extra values winning |
| Client.EditFiles | nyamanga/client.py:66-68 | the file parts are the image always and the mask only when one was opened |
| Client.OpenedFiles | nyamanga/client.py:66-68 | opening fails exactly when the image, or a given mask, cannot be opened, and the error names the image when the image fails and the mask otherwise; on success the image has the first handle, the mask is there exactly when given, and no other handle is used |
| Json.Given | nyamanga/client.py:67 | `if mask_path:` (and likewise `if bubble_hint` at embedder.py:117 and `if source_text:` at pipeline.py:44) on an optional string is Python truthiness: given exactly when it is not None and not "" |
| Client.ChatRequest | nyamanga/client.py:47-52 | the chat POST goes to `Endpoint(base_url, "/chat/completions")`, a URL ending in that path, with ChatPayload as its JSON body, the configured timeout, and the caller's stream flag |
| Client.EditRequest | nyamanga/client.py:77-83 | the edit POST goes to `Endpoint(base_url, "/images/edits")`, a URL ending in that path, as a multipart form of the open files and ImageFields, with the configured timeout, not streamed |
| Client.GenerateRequest | nyamanga/client.py:106-108 | the generation POST goes to `Endpoint(base_url, "/images/generations")`, a URL ending in that path, with ImageFields as its JSON body, the configured timeout, not streamed |
| Client.ApiErrorMessage | nyamanga/client.py:122 | the ApiError message is a non-empty run of digits, then ": ", then the reply's text |
| Client.ApiErrorMessageCarriesReply | nyamanga/client.py:121-122 | the status code can be read back from the start of the ApiError message, and the body text ends the message |
| Client.HandleResponse | nyamanga/client.py:120-129 | raises ApiError with `"<status>: <text>"` exactly when the status is 300 or more; otherwise an empty body gives {}, a decodable body gives its JSON, and any other body gives `{"data": <bytes>}` |
| Client.Respond | nyamanga/client.py:47-53 | a request method raises exactly when the POST raised (a transport error) or the status is 300 or more (an ApiError with the status and text); otherwise it returns what `_handle_response` returns |
| Client.EditImagePost | nyamanga/client.py:55-83 | nothing is posted exactly when the image, or a given mask, fails to open, and the error names the file that failed: the image when it fails, the mask when the image opened; otherwise the request is exactly EditRequest of the opened files (image handle `first`, mask handle `first + 1` exactly when a mask is given), with the configured timeout and not streamed |
| Client.HandlesTaken | nyamanga/client.py:66-68 | at most two handles: none exactly when the image fails to open, two exactly when the image and a given mask both open |
| Client.HandlesTakenCountsOpened | nyamanga/client.py:66-68 | when the files open, the handles taken are as many as the files map holds |
| Client.ResultAfter | nyamanga/client.py:47-53 | an error raised before posting (a file that did not open) is what the request method raises; otherwise it returns or raises what Respond gives for the service's answer to the request at its position in the log |
| Client.LogAfter | nyamanga/client.py:47-52 | the session log gains exactly the posted request, or stays as it was when the call raised before posting |
| Client.NyaMangaClient.constructor | nyamanga/client.py:20-23 | the session's Authorization header is `Bearer <key>`; nothing is open and nothing has been sent |
| Client.NyaMangaClient.Post | nyamanga/client.py:47-52 | one request is appended to the session log, and the outcome is the service's answer to it at that position |
| Client.NyaMangaClient.Open | nyamanga/client.py:66-68 | a file that opens gets a fresh handle, which is added to the open set; a file that does not raises OSError and changes nothing |
| Client.NyaMangaClient.CloseFiles | nyamanga/client.py:84-86 | the loop over `files.values()` leaves open exactly the previously open handles minus the closed ones |
| Client.NyaMangaClient.OpenEditFiles | nyamanga/client.py:66-68 | opens what OpenedFiles describes, and every opened handle is fresh; the next handle moves past each successful open; when the mask fails to open, the image is closed again, so nothing stays open on an error (corrected; see Findings) |
| Client.NyaMangaClient.OpenEditFilesAsWritten | nyamanga/client.py:66-68 | opens what OpenedFiles describes; the next handle moves past each successful open; when the image opens and the mask fails, the image's handle stays open |
| Client.NyaMangaClient.PostEdit | nyamanga/client.py:70-88 | posts exactly EditRequest (edits URL, the open files, ImageFields, configured timeout); closes every one of those files whatever the post did; returns `_handle_response` of the reply |
| Client.NyaMangaClient.ChatCompletion | nyamanga/client.py:25-53 | builds the payload step by step and posts exactly ChatRequest (chat URL, ChatPayload, configured timeout, stream flag); the result is `_handle_response` of the reply, or a transport error |
| Client.NyaMangaClient.EditImage | nyamanga/client.py:55-88 | the log and the result are those of EditImagePost (mask, model, response_format `b64_json` and extra default as in Python); one handle is taken per successful open; every handle opened is closed again on every path, including a failed mask open (corrected; see Findings) |
| Client.NyaMangaClient.EditImageAsWritten | nyamanga/client.py:55-88 | the same log, result and handle count, but when the mask fails to open, the freshly opened image handle stays open |
| Client.NyaMangaClient.GenerateImage | nyamanga/client.py:90-109 | posts exactly the generations request with ImageFields as JSON; the result is `_handle_response` of the reply |
| Client.NyaMangaClient.Close | nyamanga/client.py:111-112 | the session is closed |
| Client.NyaMangaClient.Enter | nyamanga/client.py:114-115 | `with` binds the client itself |
| Client.NyaMangaClient.Exit | nyamanga/client.py:117-118 | leaving the `with` block closes the client |
| Client.MaskOpenFailureLeavesImageOpen | nyamanga/client.py:66-68 | with an image that opens and a mask that does not, edit_image as written raises the mask's OSError and leaves handle 0 open |
| Client.MaskOpenFailureClosesImage | nyamanga/client.py:66-86 | the corrected edit raises the same error and leaves nothing open |
| Client.ChatCompletionDefaults | nyamanga/client.py:25-45 | for any config and service, `chat_completion(messages)` posts to the chat URL exactly model (the configured chat model), the messages given and `stream: false`, with the configured timeout, and does not stream |
| Client.GenerateImageDefaults | nyamanga/client.py:90-105 | for any config and service, `generate_image(prompt)` posts to the generations URL exactly the prompt given, model (the configured image model) and `response_format: b64_json`, with the configured timeout, not streamed |
| Embedder.FirstMessageContent | nyamanga/embedder.py:128-134 | a non-mapping reply raises; absent, null or empty choices give ""; every text returned has no whitespace at either end; the only error is a shape error |
| Embedder.MissingMessageGivesEmpty | nyamanga/embedder.py:133-134 | when choices[0] is a mapping whose message is missing or falsy, the result is "" |
| Embedder.MissingContentGivesEmpty | nyamanga/embedder.py:133-134 | when choices[0].message is a mapping without content, the result is "" |
| Embedder.FirstMessageContentOfChatReply | nyamanga/embedder.py:128-134 | on a well-formed chat reply the result is `choices[0].message.content`, stripped |
| Embedder.FirstMessageContentSource | nyamanga/embedder.py:128-134 | any non-empty result is the stripped string content at `choices[0].message.content` |
| Embedder.ImageOf | nyamanga/embedder.py:142-147 | a string item is itself; for a mapping, b64_json if truthy, else base64 if truthy, else ""; any other item gives "" |
| Embedder.FirstB64Image | nyamanga/embedder.py:137-147 | a non-mapping reply raises; absent or falsy data gives ""; a non-empty data list gives the image of its first element; every result is a string or truthy; the only error is a shape error |
| Embedder.FirstB64ImageIgnoresRest | nyamanga/embedder.py:142 | only `data[0]` matters: whatever follows it, the image is the same |
| Embedder.ImageOfStringsIsString | nyamanga/embedder.py:143-147 | when b64_json and base64 hold strings, the image is a string |
| Embedder.UndecodableReplyYieldsEmptyResults | nyamanga/embedder.py:128-147 | a 2xx reply with a non-JSON body (handed back as `{"data": bytes}`) gives "" as the rewritten text and "" as the image |
| Embedder.BuildPrompt | nyamanga/embedder.py:114-125 | with a bubble hint the prompt starts "Place the text inside speech balloons: <hint>. "; without one it starts with the existing-balloons sentence and not the other; the text segment precedes the styling segment; the prompt ends with the fixed closing sentence |
| Embedder.AutoPrompt | nyamanga/embedder.py:95-104 | starts with "Focus on balloons: <hint>. " exactly when a hint is given, else with "Use existing speech balloons. "; names the target language; ends with the style hint or its default |
| Embedder.SystemPrompt | nyamanga/embedder.py:43-47 | the system prompt names the target language at a fixed offset |
| Embedder.RewriteMessages | nyamanga/embedder.py:48-51 | exactly two messages: a system message naming the language, then the source text as the user message |
| Embedder.RewriteRequestShape | nyamanga/embedder.py:52-56 | rewrite_dialogue posts to the chat URL with exactly model (the configured chat model), messages, stream false and temperature 0.7; no top_p and no tone |
| Embedder.EmbedPost | nyamanga/embedder.py:74-79 | embed_text and auto_localize post exactly when the image, and a given mask, open; the form then holds exactly the prompt, the configured image model and `response_format: b64_json` |
| Embedder.EmbedPrompt | nyamanga/embedder.py:69-73 | the styling segment of embed_text's prompt carries the style hint when it is truthy, else the default style |
| Embedder.RewriteResult | nyamanga/embedder.py:57-58 | a raised request error propagates; a reply is turned into a result exactly when `_first_message_content` accepts it, and that result carries the reply as its raw response and the extracted content as its text; a shape error in the reply raises |
| Embedder.ImageResult | nyamanga/embedder.py:80-81 | a raised request error propagates; a reply is turned into a result exactly when `_first_b64_image` accepts it, and that result carries the reply as its raw response and the extracted image as its image; a shape error in the reply raises |
| Embedder.MangaEmbedder.constructor | nyamanga/embedder.py:33-34 | the embedder wraps the given client and has made no calls |
| Embedder.MangaEmbedder.RewriteDialogue | nyamanga/embedder.py:36-58 | language `zh` and tone `friendly manga voice` by default; posts exactly RewriteRequest; the result is the stripped first content with the raw reply, or the error raised; the call is appended to the trace; the session log only grows, by exactly one request |
| Embedder.MangaEmbedder.EmbedText | nyamanga/embedder.py:60-81 | posts the edit with BuildPrompt, whose style defaults when the hint is falsy; default model; b64_json; hint, mask and style default to None; the result is the first image with the raw reply; one handle per successful open; the session log only grows, by one request when the files open and none otherwise; no file stays open (corrected) |
| Embedder.MangaEmbedder.AutoLocalize | nyamanga/embedder.py:83-112 | posts the edit with AutoPrompt (language `zh` by default), default model and b64_json; the result is the first image with the raw reply; one handle per successful open; the session log only grows, by one request when the files open and none otherwise; no file stays open (corrected) |
| Pipeline.TwoStepTrace | nyamanga/pipeline.py:44-62 | the two-step flow holds a rewrite call and never an auto call; a result comes from two calls, and the text it returns is the text the embed call placed; an error is the rewrite's (one call) or the embed's (two calls) |
| Pipeline.AutoTrace | nyamanga/pipeline.py:63-76 | auto mode makes no rewrite call; a result has rewritten text "", dialogue response {}, and exactly the auto call's image and reply |
| Pipeline.RewritePosted | nyamanga/embedder.py:36-58 | a rewrite posts one request, the chat request for the text and language, after the log so far; the handle counter is unchanged |
| Pipeline.EmbedPosted | nyamanga/embedder.py:60-81 | an embed adds at most one request to the log (the edit with the embed prompt, when its files open) and takes at most two handles |
| Pipeline.TwoStepPosts | nyamanga/pipeline.py:44-62 | the two-step flow adds one or two requests to the log, and the first is the chat request for the source text; at most two handles are taken; in full, a rewrite error ends the flow after the chat request, and otherwise the embed edit follows with the handles after the session's |
| Pipeline.AutoPosts | nyamanga/pipeline.py:63-76 | auto mode adds one request exactly when the files open and none otherwise; an image that does not open leaves the session as it was |
| Pipeline.RewriteFailedPosts | nyamanga/pipeline.py:45-49 | a rewrite that raised, recorded after its chat request, is a complete two-step run: its trace, its session change, and its POST and handle counts |
| Pipeline.RewrittenPosts | nyamanga/pipeline.py:44-62 | a rewrite that gave a result followed by the embed of its text is a complete two-step run: its trace, its session change, and its POST and handle counts are those of the two calls |
| Pipeline.TypesettingPipeline.Init | nyamanga/pipeline.py:27 | the pipeline's embedder is new, wraps the pipeline's client, and has made no calls |
| Pipeline.TypesettingPipeline.Create | nyamanga/pipeline.py:24-27 | the config given, else from_env (whose error propagates even when a client is given); the client given, else a new one on that config |
| Pipeline.TypesettingPipeline.LocalizePanel | nyamanga/pipeline.py:29-76 | a non-empty source text runs rewrite then embed with the rewritten text, stopping at the first error; None or "" runs auto-localize alone with empty text and an empty dialogue response; the Python defaults (language `zh`, tone `friendly manga voice`, the rest None) apply; the session log and the next handle change exactly as `TwoStepPosts` or `AutoPosts` say: the requests posted are the chat request and then the edit, or the auto edit, and each recorded result is the answer the service gave to that request; the log grows by exactly the POSTs of the calls recorded and the handles taken are exactly theirs; no file stays open (corrected) |
| Pipeline.TypesettingPipeline.LocalizeTwoStep | nyamanga/pipeline.py:44-62 | rewrite_dialogue first; on success embed_text with its text, hint, mask and style; the PanelResult is made of exactly the two steps' results; errors propagate unchanged; the session changes exactly as `TwoStepPosts` says: the chat request for the source text is posted, its answer is the recorded rewrite, and only after a result is the embed edit posted, with its answer recorded; no file stays open (corrected) |
| Pipeline.TypesettingPipeline.RewriteStep | nyamanga/pipeline.py:45-49 | one rewrite_dialogue call with the source text, language and tone; the session changes exactly as `RewritePosted` says: the log gains exactly the chat request RewriteRequest for that text and language, and the result is the rewrite of the service's answer to it; no handle is taken and no file is left open |
| Pipeline.TypesettingPipeline.EmbedRewritten | nyamanga/pipeline.py:50-62 | one embed_text call with the rewritten text and the caller's hint, mask and style; the session changes exactly as `EmbedPosted` says: the edit with the embed prompt is posted when the files open, and the image result is what the service answered to it; the PanelResult has the rewritten text, the image, and both raw replies; an error propagates unchanged; no file stays open (corrected) |
| Pipeline.TypesettingPipeline.LocalizeAuto | nyamanga/pipeline.py:63-76 | one auto_localize call; the PanelResult has rewritten text "", dialogue response {}, and the image step's image and reply; the session changes exactly as `AutoPosts` says: the auto edit is posted when the files open, and the recorded result is what the service answered to it; the log grows by exactly the POSTs of the call recorded and the handles taken are exactly its own; no file stays open (corrected) |
| Pipeline.TypesettingPipeline.Close | nyamanga/pipeline.py:78-79 | closing the pipeline closes its client |
| Pipeline.TypesettingPipeline.Enter | nyamanga/pipeline.py:81-82 | `with` binds the pipeline itself |
| Pipeline.TypesettingPipeline.Exit | nyamanga/pipeline.py:84-85 | leaving the `with` block closes the client |

## Left out

- The GUI and the command-line front end are not part of this model. They only call the pipeline.
- HTTP transport, the `requests.Session` object and its connection pool are modelled by the `server` function of the client. A raised transport exception becomes the single error `TransportFailure`.
- JSON decoding is not modelled: each reply carries the value `resp.json()` would give, or None when it raises JSONDecodeError; other exceptions from the decoder are not modelled.
- Client.Reply: the Python `str` content of a decoded JSON string and `resp.text` are taken as given. Charset detection is not modelled.
- Config.Timeout: `float()` is the parameter `parseFloat`. Timeouts are real numbers, not IEEE doubles, so `inf`, `nan` and rounding are not modelled.
- Python exception classes (ValueError, OSError, ApiError, AttributeError, TypeError, requests exceptions) are collapsed into the constructors of `Errors.Error`. Tracebacks are not modelled.
- EmbedResult.save (`embedder.py:24-27`) is not modelled: base64 decoding and writing to the file system are I/O.
- The models read paths as strings. `if mask_path:` is modelled as "given and non-empty". A `pathlib.Path` object is always truthy, even `Path("")`, so a caller passing `Path("")` would try to open it. Json.Given does not capture that case.
- Client.HandleResponse: in Python a decoded JSON value never holds bytes, but `Reply.decoded` admits `JBytes` anywhere, so the model over-approximates the replies the service can give. Every contract holds for those extra replies too; in the program the bytes branch of Embedder.FirstB64Image is reached only from the `{"data": <bytes>}` fallback.
- Client.NyaMangaClient.ChatCompletion, EditImage, EditImageAsWritten and GenerateImage require `extra` to share no key with the method's parameter names. Python binds such a keyword to the parameter, so `**extra` can never hold one. The payload functions (Client.ChatPayload, Client.ImageFields) have no such requirement and show the merge in general.
- Client.NyaMangaClient.Close: what the session does on close, and calling a closed session, are not modelled. Only the closed flag is.
- Embedder.MangaEmbedder.RewriteDialogue: `tone` is recorded in the call trace. As in the source, it is never sent.
- Config.FromEnv follows the code where it is easy to misread:
  - an unparsable NYAMANGA_TIMEOUT makes `from_env` raise (`config.py:41`); there is no fallback to 30 seconds;
  - `from_env` defaults the image model to `gpt-image-1` (`config.py:39`), while the dataclass defaults it to `nano-banana-2` (`config.py:14`).
- EmbedText (Embedder.MangaEmbedder.EmbedText): built on the corrected EditImage, so its "no file stays open" does not hold of the program, where a mask that fails to open leaves the image handle open (see Findings).
- AutoLocalize (Embedder.MangaEmbedder.AutoLocalize): built on the corrected EditImage; the same gap as EmbedText.
- LocalizePanel (Pipeline.TypesettingPipeline.LocalizePanel): its "no file stays open" holds only because the embedder calls the corrected EditImage; in the program a failed mask open leaves one image handle open.
- LocalizeTwoStep (Pipeline.TypesettingPipeline.LocalizeTwoStep): the same gap, through EmbedText.
- EmbedRewritten (Pipeline.TypesettingPipeline.EmbedRewritten): the same gap, through EmbedText.
- LocalizeAuto (Pipeline.TypesettingPipeline.LocalizeAuto): the same gap, through AutoLocalize.

## Findings

| source | as written | input that shows it | evidently intended | confidence | as-written member | corrected member |
|---|---|---|---|---|---|---|
| nyamanga/client.py:66-68 | the mask is opened before the `try`/`finally` that closes the files, so when opening the mask raises, the already-open image file is never closed by `edit_image` | an image path that opens and a mask path that does not exist | every file opened by `edit_image` is closed on every exit path | medium, not executed (CPython reference counting may still close the file once the traceback is dropped) | Client.MaskOpenFailureLeavesImageOpen | Client.MaskOpenFailureClosesImage |
