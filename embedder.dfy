/**
 * MangaEmbedder (nyamanga/embedder.py): the prompts it builds, the requests
 * it hands to the client and the unwrapping of the replies.
 */
module Embedder {
  import opened Wrappers
  import opened Errors
  import opened Json
  import opened Text
  import opened Config
  import opened Client

  // ---------------------------------------------------- Reply unwrapping

  /** resp["choices"][0]["message"]["content"] is the string c (the well-formed chat reply). */
  predicate FirstContentIs(resp: Json, c: string) {
    && resp.JObj? && "choices" in resp.fields
    && var choices := resp.fields["choices"];
    && choices.JArr? && choices.items != [] && choices.items[0].JObj?
    && "message" in choices.items[0].fields
    && var message := choices.items[0].fields["message"];
    && message.JObj? && "content" in message.fields && message.fields["content"] == JStr(c)
  }

  /** The reply is a mapping whose choices are a non-empty list that starts with a mapping. */
  predicate FirstChoiceIsMapping(resp: Json) {
    && resp.JObj? && "choices" in resp.fields
    && resp.fields["choices"].JArr? && resp.fields["choices"].items != []
    && resp.fields["choices"].items[0].JObj?
  }

  /** The fields of choices[0], on a reply where it is a mapping. */
  function FirstChoice(resp: Json): map<string, Json>
    requires FirstChoiceIsMapping(resp)
  {
    resp.fields["choices"].items[0].fields
  }

  /**
   * _first_message_content: the first choice's message content, stripped.
   * Absent, null or empty choices give "", and so do a missing or falsy
   * message and a missing content. A reply that is not a mapping, choices
   * that are not a list, a first choice or message that is not a mapping,
   * and a content that is not a string (null included) raise.
   */
  function FirstMessageContent(resp: Json): (r: Result<string, Error>)
    ensures !resp.JObj? ==> r == Err(MalformedReply)
    ensures resp.JObj? && !Truthy(GetOrNull(resp.fields, "choices")) ==> r == Ok("")
    ensures r.Ok? ==> r.value == [] || (!IsSpace(r.value[0]) && !IsSpace(r.value[|r.value| - 1]))
    ensures r.Err? ==> r.error == MalformedReply
  {
    if !resp.JObj? then Err(MalformedReply)
    else
      var choices := Or(GetOrNull(resp.fields, "choices"), JArr([]));
      if !Truthy(choices) then Ok("")
      else if !choices.JArr? then Err(MalformedReply)   // str, bytes, dict, number: no .get on choices[0]
      else
        var first := choices.items[0];
        if !first.JObj? then Err(MalformedReply)
        else
          var message := Or(GetOrNull(first.fields, "message"), EmptyObject);
          if !message.JObj? then Err(MalformedReply)
          else if "content" !in message.fields then Ok(Strip(""))
          else
            var content := message.fields["content"];
            if !content.JStr? then Err(MalformedReply)
            else Ok(Strip(content.s))
  }

  /** A first choice whose message is missing or falsy gives "". */
  lemma MissingMessageGivesEmpty(resp: Json)
    requires FirstChoiceIsMapping(resp) && !Truthy(GetOrNull(FirstChoice(resp), "message"))
    ensures FirstMessageContent(resp) == Ok("")
  {
    assert Or(GetOrNull(resp.fields, "choices"), JArr([])) == resp.fields["choices"];
    assert Or(GetOrNull(FirstChoice(resp), "message"), EmptyObject) == EmptyObject;
    assert Strip("") == "" by { assert TrimmedBoth("", Strip(""), IsSpace); }
  }

  /** A message mapping without a content gives "". */
  lemma MissingContentGivesEmpty(resp: Json)
    requires FirstChoiceIsMapping(resp) && "message" in FirstChoice(resp)
    requires FirstChoice(resp)["message"].JObj? && "content" !in FirstChoice(resp)["message"].fields
    ensures FirstMessageContent(resp) == Ok("")
  {
    assert Or(GetOrNull(resp.fields, "choices"), JArr([])) == resp.fields["choices"];
    var message := Or(GetOrNull(FirstChoice(resp), "message"), EmptyObject);
    assert message.JObj? && "content" !in message.fields;
    assert Strip("") == "" by { assert TrimmedBoth("", Strip(""), IsSpace); }
  }

  /** On a well-formed chat reply the result is the first choice's content, stripped. */
  lemma FirstMessageContentOfChatReply(resp: Json, c: string)
    requires FirstContentIs(resp, c)
    ensures FirstMessageContent(resp) == Ok(Strip(c))
  {
    var choices := resp.fields["choices"];
    assert Or(GetOrNull(resp.fields, "choices"), JArr([])) == choices;
    var message := choices.items[0].fields["message"];
    assert Truthy(message);
    assert Or(GetOrNull(choices.items[0].fields, "message"), EmptyObject) == message;
  }

  /** Any non-empty text comes from a string content at choices[0].message.content. */
  lemma FirstMessageContentSource(resp: Json)
    requires FirstMessageContent(resp).Ok? && FirstMessageContent(resp).value != ""
    ensures exists c :: FirstContentIs(resp, c) && FirstMessageContent(resp).value == Strip(c)
  {
    var choices := Or(GetOrNull(resp.fields, "choices"), JArr([]));
    assert Truthy(choices) && choices.JArr?;
    assert "choices" in resp.fields && choices == resp.fields["choices"];
    var first := choices.items[0];
    var message := Or(GetOrNull(first.fields, "message"), EmptyObject);
    assert message.JObj?;
    assert "message" in first.fields && message == first.fields["message"];
    assert FirstContentIs(resp, message.fields["content"].s);
  }

  /**
   * The image a data element stands for: for a mapping, b64_json when truthy,
   * else base64 when truthy, else ""; a string element itself; anything else "".
   */
  function ImageOf(item: Json): (r: Json)
    ensures item.JStr? ==> r == item
    ensures item.JObj? && Truthy(GetOrNull(item.fields, "b64_json")) ==> r == item.fields["b64_json"]
    ensures item.JObj? && !Truthy(GetOrNull(item.fields, "b64_json")) && Truthy(GetOrNull(item.fields, "base64")) ==>
              r == item.fields["base64"]
    ensures item.JObj? && !Truthy(GetOrNull(item.fields, "b64_json")) && !Truthy(GetOrNull(item.fields, "base64")) ==>
              r == JStr("")
    ensures !item.JObj? && !item.JStr? ==> r == JStr("")
  {
    match item
    case JObj(fields) => Or(Or(GetOrNull(fields, "b64_json"), GetOrNull(fields, "base64")), JStr(""))
    case JStr(_) => item
    case _ => JStr("")
  }

  /**
   * _first_b64_image: the image of data[0], and "" when data is absent, null
   * or empty. Only data[0] is looked at. Indexing a string data gives its
   * first character, indexing bytes gives an int (so ""); a mapping or a
   * number as data raises, and so does a reply that is not a mapping.
   */
  function FirstB64Image(resp: Json): (r: Result<Json, Error>)
    ensures !resp.JObj? ==> r == Err(MalformedReply)
    ensures resp.JObj? && !Truthy(GetOrNull(resp.fields, "data")) ==> r == Ok(JStr(""))
    ensures resp.JObj? && "data" in resp.fields && resp.fields["data"].JArr? && resp.fields["data"].items != [] ==>
              r == Ok(ImageOf(resp.fields["data"].items[0]))
    ensures r.Ok? ==> r.value.JStr? || Truthy(r.value)
    ensures r.Err? ==> r.error == MalformedReply
  {
    if !resp.JObj? then Err(MalformedReply)
    else
      var dataList := Or(GetOrNull(resp.fields, "data"), JArr([]));
      if !Truthy(dataList) then Ok(JStr(""))
      else
        match dataList
        case JArr(items) => Ok(ImageOf(items[0]))
        case JStr(s) => Ok(ImageOf(JStr(s[..1])))
        case JBytes(_) => Ok(JStr(""))
        case _ => Err(MalformedReply)
  }

  /** Only the first element of data matters: whatever follows it, the image is the same. */
  lemma FirstB64ImageIgnoresRest(fields: map<string, Json>, item: Json, rest1: seq<Json>, rest2: seq<Json>)
    ensures FirstB64Image(JObj(fields["data" := JArr([item] + rest1)]))
         == FirstB64Image(JObj(fields["data" := JArr([item] + rest2)]))
  {
    assert ([item] + rest1)[0] == item && ([item] + rest2)[0] == item;
  }

  /** When the candidate fields hold strings, so does the result: the image is always a string. */
  lemma ImageOfStringsIsString(item: Json)
    requires item.JObj? ==> forall k :: k in item.fields && (k == "b64_json" || k == "base64") ==> item.fields[k].JStr?
    ensures ImageOf(item).JStr?
  {
  }

  /**
   * A 2xx reply whose non-empty body is not JSON comes back as {"data": <bytes>}:
   * the rewrite text drawn from it is "" and so is the image.
   */
  lemma UndecodableReplyYieldsEmptyResults(reply: Reply)
    requires reply.status < 300 && reply.content != [] && reply.decoded.None?
    ensures HandleResponse(reply).Ok?
    ensures FirstMessageContent(HandleResponse(reply).value) == Ok("")
    ensures FirstB64Image(HandleResponse(reply).value) == Ok(JStr(""))
  {
  }

  // ------------------------------------------------------------ Prompts

  const DEFAULT_EMBED_STYLE: string := "clean manga typesetting, legible, keep art intact"
  const DEFAULT_AUTO_STYLE: string := "Clean, legible, balanced layout."

  const PLACE_INSIDE: string := "Place the text inside" + " speech balloons: "
  const PLACE_IN_EXISTING: string := "Place the text into" + " existing speech balloons while preserving line art. "
  const PROMPT_TAIL: string := "Use natural spacing and avoid altering faces or backgrounds."
  const FOCUS_ON: string := "Focus on balloons: "
  const USE_EXISTING: string := "Use existing speech balloons. "
  const AUTO_BODY: string := "and replace with natural, concise manga typesetting. "
                             + "Preserve art, faces, and backgrounds; avoid redraw artifacts. "

  /** Where each of four concatenated parts sits in the whole. */
  lemma Layout(a: string, b: string, c: string, d: string)
    ensures StartsWith(a + b + c + d, a)
    ensures OccursAt(a + b + c + d, b, |a|)
    ensures OccursAt(a + b + c + d, c, |a| + |b|)
    ensures EndsWith(a + b + c + d, d)
  {
    var s := a + b + c + d;
    assert s[..|a|] == a;
    assert s[|a|..|a| + |b|] == b;
    assert s[|a| + |b|..|a| + |b| + |c|] == c;
  }

  /** The end of a suffix of s is a suffix of s. */
  lemma EndOfSuffix(s: string, a: string, b: string)
    requires EndsWith(s, a + b)
    ensures EndsWith(s, b)
  {
    assert s[|s| - |b|..] == (a + b)[|a|..];
  }

  /** Two prefixes that differ at position k cannot both start s. */
  lemma DiffersAt(p: string, q: string, k: nat, s: string)
    requires k < |p| && k < |q| && p[k] != q[k]
    requires StartsWith(s, p)
    ensures !StartsWith(s, q)
  {
    assert s[k] == p[k];
  }

  function TextSegment(text: string): string { "Text to typeset: " + text + ". " }

  function StyleSegment(style: string): string { "Styling: " + style + ". " }

  /**
   * _build_prompt: the placement sentence, then the text to typeset, then the
   * styling, then the fixed closing sentence.
   */
  function BuildPrompt(text: string, bubbleHint: Option<string>, styleHint: string): (p: string)
    ensures Given(bubbleHint) ==> StartsWith(p, PLACE_INSIDE + bubbleHint.value + ". ")
    ensures !Given(bubbleHint) ==> StartsWith(p, PLACE_IN_EXISTING) && !StartsWith(p, PLACE_INSIDE)
    ensures exists i: nat, j: nat :: i + |TextSegment(text)| <= j
                                    && OccursAt(p, TextSegment(text), i) && OccursAt(p, StyleSegment(styleHint), j)
    ensures EndsWith(p, PROMPT_TAIL)
  {
    var placement := if Given(bubbleHint) then PLACE_INSIDE + bubbleHint.value + ". " else PLACE_IN_EXISTING;
    var p := placement + TextSegment(text) + StyleSegment(styleHint) + PROMPT_TAIL;
    Layout(placement, TextSegment(text), StyleSegment(styleHint), PROMPT_TAIL);
    assert !Given(bubbleHint) ==> !StartsWith(p, PLACE_INSIDE) by {
      if !Given(bubbleHint) {
        DiffersAt(PLACE_IN_EXISTING, PLACE_INSIDE, 17, p);
      }
    }
    p
  }

  /** The prompt of auto_localize: placement, the translation instruction, then the style. */
  function AutoPrompt(targetLanguage: string, bubbleHint: Option<string>, styleHint: Option<string>): (p: string)
    ensures Given(bubbleHint) ==> StartsWith(p, FOCUS_ON + bubbleHint.value + ". ")
    ensures !Given(bubbleHint) ==> StartsWith(p, USE_EXISTING) && !StartsWith(p, FOCUS_ON)
    ensures exists i: nat :: OccursAt(p, "translate to " + targetLanguage + ", ", i)
    ensures EndsWith(p, OrElse(styleHint, DEFAULT_AUTO_STYLE))
  {
    var placement := if Given(bubbleHint) then FOCUS_ON + bubbleHint.value + ". " else USE_EXISTING;
    var read := "Read all speech/text in the image, ";
    var translate := "translate to " + targetLanguage + ", ";
    var style := OrElse(styleHint, DEFAULT_AUTO_STYLE);
    var p := placement + read + translate + (AUTO_BODY + style);
    Layout(placement, read, translate, AUTO_BODY + style);
    EndOfSuffix(p, AUTO_BODY, style);
    assert !Given(bubbleHint) ==> !StartsWith(p, FOCUS_ON) by {
      if !Given(bubbleHint) {
        DiffersAt(USE_EXISTING, FOCUS_ON, 0, p);
      }
    }
    p
  }

  const SYSTEM_HEAD: string := "You are a manga typesetting assistant. Translate or rewrite speech into "
  const SYSTEM_TAIL: string := " while keeping natural pacing and concise bubbles. Return plain text only."

  function SystemPrompt(targetLanguage: string): (p: string)
    ensures OccursAt(p, targetLanguage, |SYSTEM_HEAD|)
  {
    SYSTEM_HEAD + targetLanguage + SYSTEM_TAIL
  }

  /**
   * The messages of rewrite_dialogue: a system message that names the target
   * language, then the source text as the user message, and nothing else.
   */
  function RewriteMessages(sourceText: string, targetLanguage: string): (ms: seq<Message>)
    ensures |ms| == 2
    ensures ms[0].role == "system" && exists i: nat :: OccursAt(ms[0].content, targetLanguage, i)
    ensures ms[1] == Message("user", sourceText)
  {
    [Message("system", SystemPrompt(targetLanguage)), Message("user", sourceText)]
  }

  /** The chat request of rewrite_dialogue: temperature 0.7, the configured chat model, no tone. */
  function RewriteRequest(config: ApiConfig, sourceText: string, targetLanguage: string): Request {
    ChatRequest(config, RewriteMessages(sourceText, targetLanguage), Some(config.chatModel), Some(0.7), None, false, map[])
  }

  lemma RewriteRequestShape(config: ApiConfig, sourceText: string, targetLanguage: string)
    ensures var req := RewriteRequest(config, sourceText, targetLanguage);
      && req.url == Endpoint(config.baseUrl, CHAT_PATH)
      && req.body.JsonBody?
      && req.body.payload.Keys == {"model", "messages", "stream", "temperature"}
      && req.body.payload["model"] == JStr(config.chatModel)
      && req.body.payload["temperature"] == JNum(0.7)
      && req.body.payload["stream"] == JBool(false)
      && req.body.payload["messages"] == MessagesJson(RewriteMessages(sourceText, targetLanguage))
  {
  }

  /** The prompt of embed_text: its style defaults when the hint is None or "". */
  function EmbedPrompt(text: string, bubbleHint: Option<string>, styleHint: Option<string>): (p: string)
    ensures Given(styleHint) ==> exists j: nat :: OccursAt(p, StyleSegment(styleHint.value), j)
    ensures !Given(styleHint) ==> exists j: nat :: OccursAt(p, StyleSegment(DEFAULT_EMBED_STYLE), j)
  {
    BuildPrompt(text, bubbleHint, OrElse(styleHint, DEFAULT_EMBED_STYLE))
  }

  /** The edit that embed_text and auto_localize post: default model, base64 JSON output, no extras. */
  function EmbedPost(config: ApiConfig, canOpen: Path -> bool, first: Handle, imagePath: Path,
                     prompt: string, maskPath: Option<Path>): (post: Result<Request, Error>)
    ensures post.Ok? <==> FilesOpen(canOpen, imagePath, maskPath)
    ensures post.Ok? ==> && post.value.body.Multipart?
                         && post.value.body.data.Keys == {"prompt", "model", "response_format"}
                         && post.value.body.data["prompt"] == JStr(prompt)
                         && post.value.body.data["model"] == JStr(config.imageModel)
                         && post.value.body.data["response_format"] == JStr("b64_json")
  {
    EditImagePost(config, canOpen, first, imagePath, prompt, maskPath, None, "b64_json", map[])
  }

  // ------------------------------------------------------------ Results

  datatype DialogueRewriteResult = DialogueRewriteResult(text: string, rawResponse: Json)

  /** imageB64 is a string in every reply whose data[0] holds strings. */
  datatype EmbedResult = EmbedResult(imageB64: Json, rawResponse: Json)

  /** A DialogueRewriteResult of the reply's first content and the reply, or the error raised. */
  function RewriteResult(resp: Result<Json, Error>): (r: Result<DialogueRewriteResult, Error>)
    ensures resp.Err? ==> r == Err(resp.error)
    ensures r.Ok? ==> resp.Ok? && r.value.rawResponse == resp.value && Ok(r.value.text) == FirstMessageContent(resp.value)
    ensures resp.Ok? && FirstMessageContent(resp.value).Ok? ==>
              r == Ok(DialogueRewriteResult(FirstMessageContent(resp.value).value, resp.value))
    ensures resp.Ok? && r.Err? ==> r.error == MalformedReply
  {
    match resp
    case Err(e) => Err(e)
    case Ok(j) =>
      match FirstMessageContent(j)
      case Err(e) => Err(e)
      case Ok(text) => Ok(DialogueRewriteResult(text, j))
  }

  /** An EmbedResult of the reply's first image and the reply, or the error raised. */
  function ImageResult(resp: Result<Json, Error>): (r: Result<EmbedResult, Error>)
    ensures resp.Err? ==> r == Err(resp.error)
    ensures r.Ok? ==> resp.Ok? && r.value.rawResponse == resp.value && Ok(r.value.imageB64) == FirstB64Image(resp.value)
    ensures resp.Ok? && FirstB64Image(resp.value).Ok? ==>
              r == Ok(EmbedResult(FirstB64Image(resp.value).value, resp.value))
    ensures resp.Ok? && r.Err? ==> r.error == MalformedReply
  {
    match resp
    case Err(e) => Err(e)
    case Ok(j) =>
      match FirstB64Image(j)
      case Err(e) => Err(e)
      case Ok(image) => Ok(EmbedResult(image, j))
  }

  /** One call made on the embedder, with what it returned or raised. */
  datatype Call =
    | Rewrite(sourceText: string, targetLanguage: string, tone: string,
              rewritten: Result<DialogueRewriteResult, Error>)
    | Embed(imagePath: Path, text: string, bubbleHint: Option<string>, maskPath: Option<Path>,
            styleHint: Option<string>, embedded: Result<EmbedResult, Error>)
    | Auto(imagePath: Path, targetLanguage: string, bubbleHint: Option<string>, maskPath: Option<Path>,
           styleHint: Option<string>, embedded: Result<EmbedResult, Error>)

  /** The POSTs one embedder call issues: a rewrite always posts; an edit posts once its files are open. */
  function CallPosts(canOpen: Path -> bool, c: Call): nat {
    match c
    case Rewrite(_, _, _, _) => 1
    case Embed(imagePath, _, _, maskPath, _, _) => if FilesOpen(canOpen, imagePath, maskPath) then 1 else 0
    case Auto(imagePath, _, _, maskPath, _, _) => if FilesOpen(canOpen, imagePath, maskPath) then 1 else 0
  }

  /** The file handles one embedder call takes: none for a rewrite, those of its edit otherwise. */
  function CallHandles(canOpen: Path -> bool, c: Call): nat {
    match c
    case Rewrite(_, _, _, _) => 0
    case Embed(imagePath, _, _, maskPath, _, _) => HandlesTaken(canOpen, imagePath, maskPath)
    case Auto(imagePath, _, _, maskPath, _, _) => HandlesTaken(canOpen, imagePath, maskPath)
  }

  /** The POSTs a sequence of embedder calls issues. */
  function PostsOf(canOpen: Path -> bool, calls: seq<Call>): nat {
    if calls == [] then 0 else CallPosts(canOpen, calls[0]) + PostsOf(canOpen, calls[1..])
  }

  /** The file handles a sequence of embedder calls takes. */
  function HandlesOf(canOpen: Path -> bool, calls: seq<Call>): nat {
    if calls == [] then 0 else CallHandles(canOpen, calls[0]) + HandlesOf(canOpen, calls[1..])
  }

  class MangaEmbedder {
    const client: NyaMangaClient
    /** The calls made on this embedder, in order. */
    ghost var calls: seq<Call>

    constructor(client: NyaMangaClient)
      ensures this.client == client && calls == []
    {
      this.client := client;
      calls := [];
    }

    /** rewrite_dialogue: one chat completion; tone is accepted and not sent. */
    method RewriteDialogue(sourceText: string, targetLanguage: string := "zh", tone: string := "friendly manga voice")
      returns (r: Result<DialogueRewriteResult, Error>)
      modifies this`calls, client`sent
      ensures var post := Ok(RewriteRequest(client.config, sourceText, targetLanguage));
        && client.sent == LogAfter(old(client.sent), post)
        && r == RewriteResult(ResultAfter(client.server, old(client.sent), post))
      ensures calls == old(calls) + [Rewrite(sourceText, targetLanguage, tone, r)]
      ensures old(client.sent) <= client.sent
      ensures |client.sent| == |old(client.sent)| + CallPosts(client.canOpen, Rewrite(sourceText, targetLanguage, tone, r))
    {
      var messages := RewriteMessages(sourceText, targetLanguage);
      var resp := client.ChatCompletion(messages, temperature := Some(0.7), model := Some(client.config.chatModel));
      r := RewriteResult(resp);
      calls := calls + [Rewrite(sourceText, targetLanguage, tone, r)];
    }

    /** embed_text: one image edit whose prompt places the given text. */
    method EmbedText(imagePath: Path, text: string, bubbleHint: Option<string> := None,
                     maskPath: Option<Path> := None, styleHint: Option<string> := None)
      returns (r: Result<EmbedResult, Error>)
      requires client.Valid()
      modifies this`calls, client`openFiles, client`nextHandle, client`sent
      ensures client.Valid() && client.openFiles == old(client.openFiles)
      ensures client.nextHandle == old(client.nextHandle) + HandlesTaken(client.canOpen, imagePath, maskPath)
      ensures var post := EmbedPost(client.config, client.canOpen, old(client.nextHandle), imagePath,
                                    EmbedPrompt(text, bubbleHint, styleHint), maskPath);
        && client.sent == LogAfter(old(client.sent), post)
        && r == ImageResult(ResultAfter(client.server, old(client.sent), post))
      ensures calls == old(calls) + [Embed(imagePath, text, bubbleHint, maskPath, styleHint, r)]
      ensures old(client.sent) <= client.sent
      ensures |client.sent| == |old(client.sent)| + CallPosts(client.canOpen, Embed(imagePath, text, bubbleHint, maskPath, styleHint, r))
    {
      var prompt := BuildPrompt(text, bubbleHint, OrElse(styleHint, DEFAULT_EMBED_STYLE));
      var resp := client.EditImage(imagePath := imagePath, prompt := prompt, maskPath := maskPath,
                                   responseFormat := "b64_json");
      r := ImageResult(resp);
      calls := calls + [Embed(imagePath, text, bubbleHint, maskPath, styleHint, r)];
    }

    /** auto_localize: one image edit that asks the model to read, translate and re-typeset. */
    method AutoLocalize(imagePath: Path, targetLanguage: string := "zh", bubbleHint: Option<string> := None,
                        maskPath: Option<Path> := None, styleHint: Option<string> := None)
      returns (r: Result<EmbedResult, Error>)
      requires client.Valid()
      modifies this`calls, client`openFiles, client`nextHandle, client`sent
      ensures client.Valid() && client.openFiles == old(client.openFiles)
      ensures client.nextHandle == old(client.nextHandle) + HandlesTaken(client.canOpen, imagePath, maskPath)
      ensures var post := EmbedPost(client.config, client.canOpen, old(client.nextHandle), imagePath,
                                    AutoPrompt(targetLanguage, bubbleHint, styleHint), maskPath);
        && client.sent == LogAfter(old(client.sent), post)
        && r == ImageResult(ResultAfter(client.server, old(client.sent), post))
      ensures calls == old(calls) + [Auto(imagePath, targetLanguage, bubbleHint, maskPath, styleHint, r)]
      ensures old(client.sent) <= client.sent
      ensures |client.sent| == |old(client.sent)| + CallPosts(client.canOpen, Auto(imagePath, targetLanguage, bubbleHint, maskPath, styleHint, r))
    {
      var prompt := AutoPrompt(targetLanguage, bubbleHint, styleHint);
      var resp := client.EditImage(imagePath := imagePath, prompt := prompt, maskPath := maskPath,
                                   responseFormat := "b64_json");
      r := ImageResult(resp);
      calls := calls + [Auto(imagePath, targetLanguage, bubbleHint, maskPath, styleHint, r)];
    }
  }
}
