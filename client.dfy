/**
 * NyaMangaClient (nyamanga/client.py): request construction for the three
 * endpoints, the classification of replies, the session's bearer header and
 * the lifetime of the files an image edit uploads.
 *
 * What lies outside the process is a constant of the client: `server` is the
 * remote service (the outcome of the n-th POST of the session for a given
 * request), `canOpen` says whether open(path, "rb") succeeds, and every Reply
 * carries what resp.json() decodes its body to.
 */
module Client {
  import opened Wrappers
  import opened Errors
  import opened Json
  import opened Text
  import opened Config

  type Path = string
  type Handle = nat

  const CHAT_PATH: string := "/chat/completions"
  const EDITS_PATH: string := "/images/edits"
  const GENERATIONS_PATH: string := "/images/generations"

  /**
   * The parameter names of each request method. Python binds a keyword
   * argument with one of these names to the parameter, so **extra never holds one.
   */
  const CHAT_PARAMETERS: set<string> := {"self", "messages", "model", "temperature", "top_p", "stream"}
  const EDIT_PARAMETERS: set<string> := {"self", "image_path", "prompt", "mask_path", "model", "response_format"}
  const GENERATE_PARAMETERS: set<string> := {"self", "prompt", "model", "response_format"}

  // ---------------------------------------------------------------- URLs

  /** f"{base_url.rstrip('/')}{path}". */
  function Endpoint(baseUrl: string, path: string): (url: string)
    ensures |url| >= |path| && url[|url| - |path|..] == path
    ensures var b := url[..|url| - |path|];
      && |b| <= |baseUrl| && b == baseUrl[..|b|]
      && (b == [] || b[|b| - 1] != '/')
      && forall k :: |b| <= k < |baseUrl| ==> baseUrl[k] == '/'
  {
    var b := RStrip(baseUrl, '/');
    assert (b + path)[..|b|] == b;
    b + path
  }

  /** However many slashes end the base URL, every endpoint URL is the same. */
  lemma EndpointIgnoresTrailingSlashes(baseUrl: string, n: nat, path: string)
    ensures Endpoint(baseUrl + seq(n, _ => '/'), path) == Endpoint(baseUrl, path)
  {
    RStripIgnoresTrailing(baseUrl, '/', n);
  }

  // ------------------------------------------------------ Authorization

  /** The value of the session's Authorization header: f"Bearer {api_key}". */
  function Authorization(apiKey: string): (h: string)
    ensures |h| == 7 + |apiKey| && h[..7] == "Bearer " && h[7..] == apiKey
  {
    "Bearer " + apiKey
  }

  predicate IsSP(c: char) { c == ' ' }

  /** ALPHA / DIGIT / "-" / "." / "_" / "~" / "+" / "/" of section 2.1 of RFC 6750. */
  predicate IsB64TokenChar(c: char) {
    ('A' <= c <= 'Z') || ('a' <= c <= 'z') || ('0' <= c <= '9')
    || c == '-' || c == '.' || c == '_' || c == '~' || c == '+' || c == '/'
  }

  /** b64token = 1*( ALPHA / DIGIT / "-" / "." / "_" / "~" / "+" / "/" ) *"=". */
  predicate IsB64Token(t: string) {
    var core := RStrip(t, '=');
    core != [] && forall k :: 0 <= k < |core| ==> IsB64TokenChar(core[k])
  }

  /** credentials = "Bearer" 1*SP b64token (section 2.1 of RFC 6750). */
  predicate IsBearerCredentials(h: string) {
    |h| >= 7 && h[..6] == "Bearer" && h[6] == ' ' && IsB64Token(TrimStartWhile(h[6..], IsSP))
  }

  /**
   * The header the client sends is well-formed bearer credentials exactly when
   * the key, once its leading spaces are dropped, is a b64token; in particular
   * whenever the key itself is one. The key is read back from the header whole.
   */
  lemma AuthorizationIsBearerCredentials(apiKey: string)
    ensures IsBearerCredentials(Authorization(apiKey)) <==> IsB64Token(TrimStartWhile(apiKey, IsSP))
    ensures IsB64Token(apiKey) ==> IsBearerCredentials(Authorization(apiKey))
    ensures Authorization(apiKey)[7..] == apiKey
  {
    BearerHeaderParts(apiKey);
    SpaceThenKey(apiKey);
    if IsB64Token(apiKey) {
      B64TokenStartsWithTokenChar(apiKey);
      assert TrimStartWhile(apiKey, IsSP) == apiKey;
    }
  }

  lemma BearerHeaderParts(apiKey: string)
    ensures var h := Authorization(apiKey);
            |h| >= 7 && h[..6] == "Bearer" && h[6] == ' ' && h[6..] == [' '] + apiKey
  {
    var h := Authorization(apiKey);
    assert h[..6] == "Bearer";
    assert h[6..] == [' '] + apiKey;
  }

  lemma SpaceThenKey(apiKey: string)
    ensures TrimStartWhile([' '] + apiKey, IsSP) == TrimStartWhile(apiKey, IsSP)
  {
    assert ([' '] + apiKey)[1..] == apiKey;
  }

  lemma B64TokenStartsWithTokenChar(t: string)
    requires IsB64Token(t)
    ensures t != [] && IsB64TokenChar(t[0])
  {
    var core := RStrip(t, '=');
    assert core[0] == t[0];
  }

  // ----------------------------------------------------------- Requests

  datatype Message = Message(role: string, content: string)

  function MessageJson(m: Message): Json {
    JObj(map["role" := JStr(m.role), "content" := JStr(m.content)])
  }

  function MessagesJson(ms: seq<Message>): (j: Json)
    ensures j.JArr? && |j.items| == |ms|
    ensures forall i :: 0 <= i < |ms| ==> j.items[i] == MessageJson(ms[i])
  {
    JArr(seq(|ms|, i requires 0 <= i < |ms| => MessageJson(ms[i])))
  }

  /**
   * The JSON body of chat_completion. model, messages and stream are always
   * there; temperature and top_p are there exactly when they are not None
   * (a 0.0 is sent); the extra options are merged last and win.
   */
  function ChatPayload(config: ApiConfig, messages: seq<Message>, model: Option<string>,
                       temperature: Option<real>, topP: Option<real>, stream: bool,
                       extra: map<string, Json>): (p: map<string, Json>)
    ensures p.Keys == {"model", "messages", "stream"}
                      + (if temperature.Some? then {"temperature"} else {})
                      + (if topP.Some? then {"top_p"} else {})
                      + extra.Keys
    ensures forall k :: k in extra ==> p[k] == extra[k]
    ensures "model" !in extra ==> p["model"] == JStr(OrElse(model, config.chatModel))
    ensures "messages" !in extra ==> p["messages"] == MessagesJson(messages)
    ensures "stream" !in extra ==> p["stream"] == JBool(stream)
    ensures temperature.Some? && "temperature" !in extra ==> p["temperature"] == JNum(temperature.value)
    ensures topP.Some? && "top_p" !in extra ==> p["top_p"] == JNum(topP.value)
  {
    var fields := map["model" := JStr(OrElse(model, config.chatModel)),
                      "messages" := MessagesJson(messages),
                      "stream" := JBool(stream)];
    var fields := if temperature.Some? then fields["temperature" := JNum(temperature.value)] else fields;
    var fields := if topP.Some? then fields["top_p" := JNum(topP.value)] else fields;
    fields + extra
  }

  /**
   * The form fields of edit_image and the JSON body of generate_image:
   * prompt, model (falling back to the configured image model when falsy) and
   * response_format, with the extra options merged last.
   */
  function ImageFields(config: ApiConfig, prompt: string, model: Option<string>,
                       responseFormat: string, extra: map<string, Json>): (d: map<string, Json>)
    ensures d.Keys == {"prompt", "model", "response_format"} + extra.Keys
    ensures forall k :: k in extra ==> d[k] == extra[k]
    ensures "prompt" !in extra ==> d["prompt"] == JStr(prompt)
    ensures "model" !in extra ==> d["model"] == JStr(OrElse(model, config.imageModel))
    ensures "response_format" !in extra ==> d["response_format"] == JStr(responseFormat)
  {
    map["prompt" := JStr(prompt),
        "model" := JStr(OrElse(model, config.imageModel)),
        "response_format" := JStr(responseFormat)] + extra
  }

  /** The multipart file parts: always the image, the mask only when one was opened. */
  function EditFiles(image: Handle, mask: Option<Handle>): (files: map<string, Handle>)
    ensures files.Keys == {"image"} + (if mask.Some? then {"mask"} else {})
    ensures files["image"] == image
    ensures mask.Some? ==> files["mask"] == mask.value
  {
    if mask.Some? then map["image" := image, "mask" := mask.value] else map["image" := image]
  }

  lemma SingletonValues(key: string, h: Handle)
    ensures map[key := h].Values == {h}
  {
    var m := map[key := h];
    assert m[key] == h && h in m.Values;
    forall v | v in m.Values ensures v == h {
      var k :| k in m && m[k] == v;
    }
  }

  datatype Body =
    | JsonBody(payload: map<string, Json>)
    | Multipart(files: map<string, Handle>, data: map<string, Json>)

  /** One session.post(url, ..., timeout=config.request_timeout, stream=...). */
  datatype Request = Request(url: string, body: Body, timeout: real, stream: bool)

  /** The POST of chat_completion: JSON to the chat endpoint, streaming as asked. */
  function ChatRequest(config: ApiConfig, messages: seq<Message>, model: Option<string>,
                       temperature: Option<real>, topP: Option<real>, stream: bool,
                       extra: map<string, Json>): (req: Request)
    ensures req.url == Endpoint(config.baseUrl, CHAT_PATH) && EndsWith(req.url, CHAT_PATH)
    ensures req.body.JsonBody? && req.body.payload == ChatPayload(config, messages, model, temperature, topP, stream, extra)
    ensures req.timeout == config.requestTimeout && req.stream == stream
  {
    Request(Endpoint(config.baseUrl, CHAT_PATH),
            JsonBody(ChatPayload(config, messages, model, temperature, topP, stream, extra)),
            config.requestTimeout, stream)
  }

  /** The POST of edit_image: a multipart form with the open files to the edits endpoint, never streamed. */
  function EditRequest(config: ApiConfig, files: map<string, Handle>, prompt: string,
                       model: Option<string>, responseFormat: string, extra: map<string, Json>): (req: Request)
    ensures req.url == Endpoint(config.baseUrl, EDITS_PATH) && EndsWith(req.url, EDITS_PATH)
    ensures req.body.Multipart? && req.body.files == files
            && req.body.data == ImageFields(config, prompt, model, responseFormat, extra)
    ensures req.timeout == config.requestTimeout && !req.stream
  {
    Request(Endpoint(config.baseUrl, EDITS_PATH),
            Multipart(files, ImageFields(config, prompt, model, responseFormat, extra)),
            config.requestTimeout, false)
  }

  /** The POST of generate_image: JSON to the generations endpoint, never streamed. */
  function GenerateRequest(config: ApiConfig, prompt: string, model: Option<string>,
                           responseFormat: string, extra: map<string, Json>): (req: Request)
    ensures req.url == Endpoint(config.baseUrl, GENERATIONS_PATH) && EndsWith(req.url, GENERATIONS_PATH)
    ensures req.body.JsonBody? && req.body.payload == ImageFields(config, prompt, model, responseFormat, extra)
    ensures req.timeout == config.requestTimeout && !req.stream
  {
    Request(Endpoint(config.baseUrl, GENERATIONS_PATH),
            JsonBody(ImageFields(config, prompt, model, responseFormat, extra)),
            config.requestTimeout, false)
  }

  // ------------------------------------------------------------ Replies

  /**
   * What the HTTP library hands back: the status code, the body bytes
   * (resp.content), the body as text (resp.text) and what resp.json() yields
   * for the body, None where it raises JSONDecodeError.
   */
  datatype Reply = Reply(status: nat, content: seq<byte>, text: string, decoded: Option<Json>)

  /** A POST either gets a reply or raises inside the HTTP library. */
  datatype Outcome = Replied(reply: Reply) | Raised

  /** f"{resp.status_code}: {resp.text}". */
  function ApiErrorMessage(status: nat, text: string): (m: string)
    ensures EndsWith(m, ": " + text)
    ensures var code := m[..|m| - |text| - 2]; code != [] && All(code, IsDigit)
  {
    Decimal(status) + ": " + text
  }

  /** The status code can be read back from the start of the message, and the body text ends it. */
  lemma ApiErrorMessageCarriesReply(status: nat, text: string)
    ensures var m := ApiErrorMessage(status, text);
      && ParseDecimal(LeadingDigits(m)) == status
      && |m| > |text| && m[|m| - |text|..] == text
  {
    var m := ApiErrorMessage(status, text);
    assert m == Decimal(status) + (": " + text);
    LeadingDigitsOfNumeral(Decimal(status), ": " + text);
    DecimalRoundTrip(status);
  }

  /**
   * _handle_response: a status of 300 or more raises ApiError; otherwise an
   * empty body is {}, a body that decodes is its JSON value, and any other
   * body is handed back as {"data": <bytes>}.
   */
  function HandleResponse(resp: Reply): (r: Result<Json, Error>)
    ensures r.Err? <==> resp.status >= 300
    ensures r.Err? ==> r.error == ApiError(ApiErrorMessage(resp.status, resp.text))
    ensures r.Ok? && resp.content == [] ==> r.value == EmptyObject
    ensures r.Ok? && resp.content != [] && resp.decoded.Some? ==> r.value == resp.decoded.value
    ensures r.Ok? && resp.content != [] && resp.decoded.None? ==> r.value == JObj(map["data" := JBytes(resp.content)])
  {
    if resp.status >= 300 then Err(ApiError(ApiErrorMessage(resp.status, resp.text)))
    else if resp.content == [] then Ok(EmptyObject)
    else
      match resp.decoded
      case Some(j) => Ok(j)
      case None => Ok(JObj(map["data" := JBytes(resp.content)]))
  }

  /** What a request method returns or raises for the outcome of its POST. */
  function Respond(o: Outcome): (r: Result<Json, Error>)
    ensures r.Err? <==> o.Raised? || o.reply.status >= 300
    ensures o.Raised? ==> r == Err(TransportFailure)
    ensures o.Replied? && r.Err? ==> r.error == ApiError(ApiErrorMessage(o.reply.status, o.reply.text))
    ensures o.Replied? && r.Ok? ==> r == HandleResponse(o.reply)
  {
    match o
    case Raised => Err(TransportFailure)
    case Replied(reply) => HandleResponse(reply)
  }

  /**
   * The file parts edit_image opens, or the OSError of the first open that
   * fails: the image with handle `first`, then the mask, only when one is
   * given, with the next handle.
   */
  function OpenedFiles(canOpen: Path -> bool, first: Handle, imagePath: Path, maskPath: Option<Path>)
    : (r: Result<map<string, Handle>, Error>)
    ensures r.Err? <==> !canOpen(imagePath) || (Given(maskPath) && !canOpen(maskPath.value))
    ensures !canOpen(imagePath) ==> r == Err(OpenFailed(imagePath))
    ensures canOpen(imagePath) && r.Err? ==> r == Err(OpenFailed(maskPath.value))
    ensures r.Ok? ==> && "image" in r.value && r.value["image"] == first
                      && ("mask" in r.value <==> Given(maskPath))
                      && ("mask" in r.value ==> r.value["mask"] == first + 1)
                      && r.value.Values <= {first, first + 1}
  {
    if !canOpen(imagePath) then Err(OpenFailed(imagePath))
    else if Given(maskPath) && !canOpen(maskPath.value) then Err(OpenFailed(maskPath.value))
    else Ok(EditFiles(first, if Given(maskPath) then Some(first + 1) else None))
  }

  /**
   * The request edit_image posts, or the OSError that open() raises before
   * anything is posted. The image is opened first and gets handle `first`;
   * the mask, only when one is given, gets the next handle.
   */
  function EditImagePost(config: ApiConfig, canOpen: Path -> bool, first: Handle, imagePath: Path,
                         prompt: string, maskPath: Option<Path>, model: Option<string>,
                         responseFormat: string, extra: map<string, Json>): (post: Result<Request, Error>)
    ensures post.Err? <==> !canOpen(imagePath) || (Given(maskPath) && !canOpen(maskPath.value))
    ensures !canOpen(imagePath) ==> post == Err(OpenFailed(imagePath))
    ensures canOpen(imagePath) && post.Err? ==> post == Err(OpenFailed(maskPath.value))
    ensures post.Ok? ==> && OpenedFiles(canOpen, first, imagePath, maskPath).Ok?
                         && post.value == EditRequest(config, OpenedFiles(canOpen, first, imagePath, maskPath).value,
                                                      prompt, model, responseFormat, extra)
    ensures post.Ok? ==> && post.value.url == Endpoint(config.baseUrl, EDITS_PATH)
                         && post.value.body.Multipart?
                         && "image" in post.value.body.files && post.value.body.files["image"] == first
                         && ("mask" in post.value.body.files <==> Given(maskPath))
                         && ("mask" in post.value.body.files ==> post.value.body.files["mask"] == first + 1)
                         && post.value.body.data == ImageFields(config, prompt, model, responseFormat, extra)
                         && post.value.timeout == config.requestTimeout && !post.value.stream
  {
    match OpenedFiles(canOpen, first, imagePath, maskPath)
    case Err(e) => Err(e)
    case Ok(files) => Ok(EditRequest(config, files, prompt, model, responseFormat, extra))
  }

  /** Whether edit_image gets as far as posting: the image opens, and so does the mask when one is given. */
  predicate FilesOpen(canOpen: Path -> bool, imagePath: Path, maskPath: Option<Path>) {
    canOpen(imagePath) && (Given(maskPath) ==> canOpen(maskPath.value))
  }

  /**
   * How many handles edit_image takes: one for the image when it opens, one
   * more for a given mask when that opens too.
   */
  function HandlesTaken(canOpen: Path -> bool, imagePath: Path, maskPath: Option<Path>): (n: nat)
    ensures n <= 2
    ensures n == 0 <==> !canOpen(imagePath)
    ensures n == 2 <==> canOpen(imagePath) && Given(maskPath) && canOpen(maskPath.value)
  {
    if !canOpen(imagePath) then 0
    else if Given(maskPath) && canOpen(maskPath.value) then 2
    else 1
  }

  /** When the edit's files all open, the handles taken are the ones the files map holds. */
  lemma HandlesTakenCountsOpened(canOpen: Path -> bool, first: Handle, imagePath: Path, maskPath: Option<Path>)
    requires OpenedFiles(canOpen, first, imagePath, maskPath).Ok?
    ensures HandlesTaken(canOpen, imagePath, maskPath) == |OpenedFiles(canOpen, first, imagePath, maskPath).value|
  {
  }

  /** The session's log after a request method: one more request, or none when it raised before posting. */
  function LogAfter(before: seq<Request>, post: Result<Request, Error>): (after: seq<Request>)
    ensures post.Ok? ==> after == before + [post.value]
    ensures post.Err? ==> after == before
  {
    if post.Ok? then before + [post.value] else before
  }

  /** What a request method returns or raises, given the request it posts and the requests before it. */
  function ResultAfter(server: (nat, Request) -> Outcome, before: seq<Request>, post: Result<Request, Error>)
    : (r: Result<Json, Error>)
    ensures post.Err? ==> r == Err(post.error)
    ensures post.Ok? ==> r == Respond(server(|before|, post.value))
  {
    match post
    case Err(e) => Err(e)
    case Ok(req) => Respond(server(|before|, req))
  }

  // ------------------------------------------------------------- Client

  class NyaMangaClient {
    const config: ApiConfig
    /** The Authorization header of the session, set once when it is created. */
    const authorization: string
    /** The remote service: the outcome of the n-th POST of this session for a request. */
    const server: (nat, Request) -> Outcome
    /** Whether open(path, "rb") succeeds. */
    const canOpen: Path -> bool

    /** Whether close() has released the session. */
    var closed: bool
    /** The file handles this client has opened and not yet closed. */
    var openFiles: set<Handle>
    /** The handle the next open() returns. */
    var nextHandle: Handle
    /** Every POST the session has issued, in order. */
    var sent: seq<Request>

    ghost predicate Valid()
      reads this`openFiles, this`nextHandle
    {
      forall h :: h in openFiles ==> h < nextHandle
    }

    constructor(config: ApiConfig, server: (nat, Request) -> Outcome, canOpen: Path -> bool)
      ensures this.config == config && this.server == server && this.canOpen == canOpen
      ensures authorization == Authorization(config.apiKey)
      ensures !closed && openFiles == {} && nextHandle == 0 && sent == []
      ensures Valid()
    {
      this.config := config;
      this.server := server;
      this.canOpen := canOpen;
      authorization := Authorization(config.apiKey);
      closed := false;
      openFiles := {};
      nextHandle := 0;
      sent := [];
    }

    /** session.post: issues the request and gets the service's outcome for it. */
    method Post(req: Request) returns (o: Outcome)
      modifies this`sent
      ensures sent == old(sent) + [req]
      ensures o == server(|old(sent)|, req)
    {
      o := server(|sent|, req);
      sent := sent + [req];
    }

    /** open(path, "rb"): a fresh handle, or OSError. */
    method Open(path: Path) returns (r: Result<Handle, Error>)
      requires Valid()
      modifies this`openFiles, this`nextHandle
      ensures Valid()
      ensures canOpen(path) ==> r == Ok(old(nextHandle)) && old(nextHandle) !in old(openFiles)
                                && openFiles == old(openFiles) + {old(nextHandle)}
                                && nextHandle == old(nextHandle) + 1
      ensures !canOpen(path) ==> r == Err(OpenFailed(path))
                                 && openFiles == old(openFiles) && nextHandle == old(nextHandle)
    {
      if canOpen(path) {
        r := Ok(nextHandle);
        openFiles := openFiles + {nextHandle};
        nextHandle := nextHandle + 1;
      } else {
        r := Err(OpenFailed(path));
      }
    }

    /** `for file in files.values(): file.close()`. */
    method CloseFiles(files: map<string, Handle>)
      requires Valid()
      modifies this`openFiles
      ensures Valid()
      ensures openFiles == old(openFiles) - files.Values
    {
      var remaining := files.Values;
      while remaining != {}
        invariant remaining <= files.Values
        invariant openFiles == old(openFiles) - (files.Values - remaining)
        invariant Valid()
        decreases remaining
      {
        var file :| file in remaining;
        openFiles := openFiles - {file};
        remaining := remaining - {file};
      }
    }

    /** chat_completion: POSTs the chat payload to the chat endpoint. */
    method ChatCompletion(messages: seq<Message>, model: Option<string> := None, temperature: Option<real> := None,
                          topP: Option<real> := None, stream: bool := false, extra: map<string, Json> := map[])
      returns (r: Result<Json, Error>)
      requires extra.Keys !! CHAT_PARAMETERS
      modifies this`sent
      ensures sent == LogAfter(old(sent), Ok(ChatRequest(config, messages, model, temperature, topP, stream, extra)))
      ensures r == ResultAfter(server, old(sent), Ok(ChatRequest(config, messages, model, temperature, topP, stream, extra)))
    {
      var url := Endpoint(config.baseUrl, CHAT_PATH);
      var payload := map["model" := JStr(OrElse(model, config.chatModel)),
                         "messages" := MessagesJson(messages),
                         "stream" := JBool(stream)];
      if temperature.Some? {
        payload := payload["temperature" := JNum(temperature.value)];
      }
      if topP.Some? {
        payload := payload["top_p" := JNum(topP.value)];
      }
      payload := payload + extra;
      var outcome := Post(Request(url, JsonBody(payload), config.requestTimeout, stream));
      r := Respond(outcome);
    }

    /**
     * Lines 66-68 of edit_image: open the image, then the mask when one is
     * given. When the mask fails to open, the image is closed again before
     * the error propagates.
     */
    method OpenEditFiles(imagePath: Path, maskPath: Option<Path>) returns (files: Result<map<string, Handle>, Error>)
      requires Valid()
      modifies this`openFiles, this`nextHandle
      ensures Valid()
      ensures files == OpenedFiles(canOpen, old(nextHandle), imagePath, maskPath)
      ensures nextHandle == old(nextHandle) + HandlesTaken(canOpen, imagePath, maskPath)
      ensures files.Ok? ==> openFiles == old(openFiles) + files.value.Values && files.value.Values !! old(openFiles)
      ensures files.Err? ==> openFiles == old(openFiles)
    {
      var image := Open(imagePath);
      if image.Err? {
        return Err(image.error);
      }
      files := Ok(map["image" := image.value]);
      SingletonValues("image", image.value);
      if Given(maskPath) {
        var mask := Open(maskPath.value);
        if mask.Err? {
          CloseFiles(files.value);
          return Err(mask.error);
        }
        files := Ok(files.value["mask" := mask.value]);
        assert files.value.Values == {image.value, mask.value} by {
          assert files.value["image"] == image.value && files.value["mask"] == mask.value;
        }
      }
    }

    /**
     * Lines 66-68 of edit_image as written: when the mask fails to open, the
     * image it has just opened stays open.
     */
    method OpenEditFilesAsWritten(imagePath: Path, maskPath: Option<Path>) returns (files: Result<map<string, Handle>, Error>)
      requires Valid()
      modifies this`openFiles, this`nextHandle
      ensures Valid()
      ensures files == OpenedFiles(canOpen, old(nextHandle), imagePath, maskPath)
      ensures nextHandle == old(nextHandle) + HandlesTaken(canOpen, imagePath, maskPath)
      ensures files.Ok? ==> openFiles == old(openFiles) + files.value.Values && files.value.Values !! old(openFiles)
      ensures canOpen(imagePath) && files.Err? ==>
                openFiles == old(openFiles) + {old(nextHandle)} && old(nextHandle) !in old(openFiles)
      ensures !canOpen(imagePath) ==> openFiles == old(openFiles)
    {
      var image := Open(imagePath);
      if image.Err? {
        return Err(image.error);
      }
      files := Ok(map["image" := image.value]);
      SingletonValues("image", image.value);
      if Given(maskPath) {
        var mask := Open(maskPath.value);
        if mask.Err? {
          return Err(mask.error);
        }
        files := Ok(files.value["mask" := mask.value]);
        assert files.value.Values == {image.value, mask.value} by {
          assert files.value["image"] == image.value && files.value["mask"] == mask.value;
        }
      }
    }

    /**
     * edit_image with every opened file closed on every exit path, including
     * the one where opening the mask fails (the image is then closed too).
     */
    method EditImage(imagePath: Path, prompt: string, maskPath: Option<Path> := None, model: Option<string> := None,
                     responseFormat: string := "b64_json", extra: map<string, Json> := map[])
      returns (r: Result<Json, Error>)
      requires Valid()
      requires extra.Keys !! EDIT_PARAMETERS
      modifies this`openFiles, this`nextHandle, this`sent
      ensures Valid()
      ensures openFiles == old(openFiles)
      ensures nextHandle == old(nextHandle) + HandlesTaken(canOpen, imagePath, maskPath)
      ensures var post := EditImagePost(config, canOpen, old(nextHandle), imagePath, prompt, maskPath, model, responseFormat, extra);
        sent == LogAfter(old(sent), post) && r == ResultAfter(server, old(sent), post)
    {
      var url := Endpoint(config.baseUrl, EDITS_PATH);
      var files := OpenEditFiles(imagePath, maskPath);
      if files.Err? {
        return Err(files.error);
      }
      r := PostEdit(url, files.value, prompt, model, responseFormat, extra);
    }

    /**
     * edit_image as nyamanga/client.py writes it: the mask is opened before
     * the try block, so when that open raises, the image stays open.
     */
    method EditImageAsWritten(imagePath: Path, prompt: string, maskPath: Option<Path> := None,
                              model: Option<string> := None, responseFormat: string := "b64_json",
                              extra: map<string, Json> := map[])
      returns (r: Result<Json, Error>)
      requires Valid()
      requires extra.Keys !! EDIT_PARAMETERS
      modifies this`openFiles, this`nextHandle, this`sent
      ensures Valid()
      ensures var post := EditImagePost(config, canOpen, old(nextHandle), imagePath, prompt, maskPath, model, responseFormat, extra);
        sent == LogAfter(old(sent), post) && r == ResultAfter(server, old(sent), post)
      ensures nextHandle == old(nextHandle) + HandlesTaken(canOpen, imagePath, maskPath)
      ensures canOpen(imagePath) && Given(maskPath) && !canOpen(maskPath.value) ==>
                openFiles == old(openFiles) + {old(nextHandle)} && old(nextHandle) !in old(openFiles)
      ensures !(canOpen(imagePath) && Given(maskPath) && !canOpen(maskPath.value)) ==>
                openFiles == old(openFiles)
    {
      var url := Endpoint(config.baseUrl, EDITS_PATH);
      var files := OpenEditFilesAsWritten(imagePath, maskPath);
      if files.Err? {
        return Err(files.error);
      }
      r := PostEdit(url, files.value, prompt, model, responseFormat, extra);
    }

    /**
     * Lines 70-88 of edit_image: build the form fields, post them with the
     * open files, close every file whatever the post did, then classify the reply.
     */
    method PostEdit(url: string, files: map<string, Handle>, prompt: string, model: Option<string>,
                    responseFormat: string, extra: map<string, Json>)
      returns (r: Result<Json, Error>)
      requires Valid()
      requires url == Endpoint(config.baseUrl, EDITS_PATH)
      modifies this`openFiles, this`sent
      ensures Valid()
      ensures openFiles == old(openFiles) - files.Values
      ensures sent == old(sent) + [EditRequest(config, files, prompt, model, responseFormat, extra)]
      ensures r == Respond(server(|old(sent)|, EditRequest(config, files, prompt, model, responseFormat, extra)))
    {
      var data := map["prompt" := JStr(prompt),
                      "model" := JStr(OrElse(model, config.imageModel)),
                      "response_format" := JStr(responseFormat)];
      data := data + extra;
      var outcome := Post(Request(url, Multipart(files, data), config.requestTimeout, false));
      CloseFiles(files);
      r := Respond(outcome);
    }

    /** generate_image: POSTs the image fields as JSON to the generations endpoint. */
    method GenerateImage(prompt: string, model: Option<string> := None, responseFormat: string := "b64_json",
                         extra: map<string, Json> := map[])
      returns (r: Result<Json, Error>)
      requires extra.Keys !! GENERATE_PARAMETERS
      modifies this`sent
      ensures sent == LogAfter(old(sent), Ok(GenerateRequest(config, prompt, model, responseFormat, extra)))
      ensures r == ResultAfter(server, old(sent), Ok(GenerateRequest(config, prompt, model, responseFormat, extra)))
    {
      var url := Endpoint(config.baseUrl, GENERATIONS_PATH);
      var payload := map["prompt" := JStr(prompt),
                         "model" := JStr(OrElse(model, config.imageModel)),
                         "response_format" := JStr(responseFormat)];
      payload := payload + extra;
      var outcome := Post(Request(url, JsonBody(payload), config.requestTimeout, false));
      r := Respond(outcome);
    }

    /** close(): releases the session. */
    method Close()
      modifies this`closed
      ensures closed
    {
      closed := true;
    }

    /** __enter__: the client itself. */
    method Enter() returns (c: NyaMangaClient)
      ensures c == this
    {
      c := this;
    }

    /** __exit__: closes the client whatever ended the with-block. */
    method Exit()
      modifies this`closed
      ensures closed
    {
      Close();
    }
  }

  /**
   * The leak in edit_image as written: with an image that opens and a mask
   * that does not, handle 0 is still open after the call has raised.
   */
  method MaskOpenFailureLeavesImageOpen() returns (stillOpen: set<Handle>, r: Result<Json, Error>)
    ensures r == Err(OpenFailed("mask.png"))
    ensures stillOpen == {0}
  {
    var c := new NyaMangaClient(NewApiConfig("key"), (n, req) => Raised, p => p == "panel.png");
    r := c.EditImageAsWritten("panel.png", "prompt", Some("mask.png"));
    stillOpen := c.openFiles;
  }

  /** The same call on the corrected EditImage leaves nothing open. */
  method MaskOpenFailureClosesImage() returns (stillOpen: set<Handle>, r: Result<Json, Error>)
    ensures r == Err(OpenFailed("mask.png"))
    ensures stillOpen == {}
  {
    var c := new NyaMangaClient(NewApiConfig("key"), (n, req) => Raised, p => p == "panel.png");
    r := c.EditImage("panel.png", "prompt", Some("mask.png"));
    stillOpen := c.openFiles;
  }

  /**
   * chat_completion(messages) with every default, on any client: the chat
   * endpoint of its base URL, exactly model (the configured chat model), the
   * messages and stream false, the configured timeout, and no streaming.
   */
  method ChatCompletionDefaults(config: ApiConfig, server: (nat, Request) -> Outcome, canOpen: Path -> bool,
                                messages: seq<Message>)
    returns (req: Request)
    ensures req.url == Endpoint(config.baseUrl, CHAT_PATH)
    ensures req.body.JsonBody? && req.body.payload.Keys == {"model", "messages", "stream"}
    ensures req.body.payload["model"] == JStr(config.chatModel)
    ensures req.body.payload["messages"] == MessagesJson(messages)
    ensures req.body.payload["stream"] == JBool(false)
    ensures req.timeout == config.requestTimeout && !req.stream
  {
    var c := new NyaMangaClient(config, server, canOpen);
    var r := c.ChatCompletion(messages);
    req := c.sent[0];
  }

  /**
   * generate_image(prompt) with every default, on any client: the generations
   * endpoint of its base URL, exactly the prompt, the configured image model
   * and base64 JSON output, the configured timeout, and no streaming.
   */
  method GenerateImageDefaults(config: ApiConfig, server: (nat, Request) -> Outcome, canOpen: Path -> bool,
                               prompt: string)
    returns (req: Request)
    ensures req.url == Endpoint(config.baseUrl, GENERATIONS_PATH)
    ensures req.body.JsonBody? && req.body.payload.Keys == {"prompt", "model", "response_format"}
    ensures req.body.payload["prompt"] == JStr(prompt)
    ensures req.body.payload["model"] == JStr(config.imageModel)
    ensures req.body.payload["response_format"] == JStr("b64_json")
    ensures req.timeout == config.requestTimeout && !req.stream
  {
    var c := new NyaMangaClient(config, server, canOpen);
    var r := c.GenerateImage(prompt);
    req := c.sent[0];
  }
}
