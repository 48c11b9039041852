/**
 * TypesettingPipeline (nyamanga/pipeline.py): the choice between the
 * two-step flow (rewrite the dialogue, then embed the rewritten text) and the
 * single auto-localize call, and the PanelResult assembled from the steps.
 */
module Pipeline {
  import opened Wrappers
  import opened Errors
  import opened Json
  import opened Config
  import opened Client
  import opened Embedder

  datatype PanelResult = PanelResult(
    rewrittenText: string,
    editedImageB64: Json,
    dialogueResponse: Json,
    imageResponse: Json)

  /**
   * The calls of the two-step flow and its outcome: rewrite_dialogue with the
   * source text, language and tone; if it raised, nothing else and the same
   * error; otherwise embed_text with the rewritten text and the caller's hint,
   * mask and style, and a PanelResult made of exactly the two steps' results.
   */
  ghost function TwoStepTrace(imagePath: Path, sourceText: string, targetLanguage: string, tone: string,
                               bubbleHint: Option<string>, maskPath: Option<Path>, styleHint: Option<string>,
                               calls: seq<Call>, r: Result<PanelResult, Error>): (b: bool)
    ensures calls == [] ==> !b
    ensures b ==> forall i :: 0 <= i < |calls| ==> !calls[i].Auto?
    ensures b ==> calls[0].Rewrite?
    ensures b && r.Ok? ==> && |calls| == 2 && calls[0].rewritten.Ok? && calls[1].Embed?
                           && r.value.rewrittenText == calls[0].rewritten.value.text == calls[1].text
    ensures b && r.Err? ==> || (|calls| == 1 && calls[0].rewritten == Err(r.error))
                            || (|calls| == 2 && calls[1].Embed? && calls[1].embedded == Err(r.error))
  {
    && |calls| >= 1
    && calls[0].Rewrite?
    && calls[0] == Rewrite(sourceText, targetLanguage, tone, calls[0].rewritten)
    && match calls[0].rewritten
       case Err(e) => |calls| == 1 && r == Err(e)
       case Ok(dialogue) =>
         && |calls| == 2
         && calls[1].Embed?
         && calls[1] == Embed(imagePath, dialogue.text, bubbleHint, maskPath, styleHint, calls[1].embedded)
         && match calls[1].embedded
            case Err(e) => r == Err(e)
            case Ok(embed) =>
              r == Ok(PanelResult(dialogue.text, embed.imageB64, dialogue.rawResponse, embed.rawResponse))
  }

  /**
   * The calls of auto mode and its outcome: auto_localize alone, with the
   * caller's language, hint, mask and style; an empty rewritten text and an
   * empty dialogue response.
   */
  ghost function AutoTrace(imagePath: Path, targetLanguage: string,
                            bubbleHint: Option<string>, maskPath: Option<Path>, styleHint: Option<string>,
                            calls: seq<Call>, r: Result<PanelResult, Error>): (b: bool)
    ensures calls == [] ==> !b
    ensures b ==> forall i :: 0 <= i < |calls| ==> !calls[i].Rewrite?
    ensures b && r.Ok? ==> && r.value.rewrittenText == "" && r.value.dialogueResponse == EmptyObject
                           && calls[0].embedded == Ok(EmbedResult(r.value.editedImageB64, r.value.imageResponse))
  {
    && |calls| == 1
    && calls[0].Auto?
    && calls[0] == Auto(imagePath, targetLanguage, bubbleHint, maskPath, styleHint, calls[0].embedded)
    && match calls[0].embedded
       case Err(e) => r == Err(e)
       case Ok(embed) => r == Ok(PanelResult("", embed.imageB64, EmptyObject, embed.rawResponse))
  }

  /** The request log of the client's session and the handle its next open will get. */
  datatype Session = Session(log: seq<Request>, next: Handle)

  /**
   * What rewrite_dialogue does to the client's session: it posts the chat
   * request for the source text and language, and its result is what the
   * service answered to that request; no file is opened.
   */
  ghost predicate RewritePosted(config: ApiConfig, server: (nat, Request) -> Outcome, before: Session,
                                sourceText: string, targetLanguage: string,
                                dialogue: Result<DialogueRewriteResult, Error>, after: Session): (b: bool)
    ensures b ==> && before.log <= after.log && |after.log| == |before.log| + 1
                  && after.log[|before.log|] == RewriteRequest(config, sourceText, targetLanguage)
                  && after.next == before.next
  {
    var chat := RewriteRequest(config, sourceText, targetLanguage);
    && dialogue == RewriteResult(ResultAfter(server, before.log, Ok(chat)))
    && after == Session(before.log + [chat], before.next)
  }

  /**
   * What embed_text does to the client's session: it posts the edit for the
   * text with the embed prompt when the files open, with handles from the
   * session's next one, and its result is what the service answered to that
   * edit, or the error raised before posting.
   */
  ghost predicate EmbedPosted(config: ApiConfig, server: (nat, Request) -> Outcome, canOpen: Path -> bool,
                              before: Session, imagePath: Path, text: string, bubbleHint: Option<string>,
                              maskPath: Option<Path>, styleHint: Option<string>,
                              embed: Result<EmbedResult, Error>, after: Session): (b: bool)
    ensures b ==> && before.log <= after.log && |after.log| <= |before.log| + 1
                  && before.next <= after.next <= before.next + 2
  {
    var post := EmbedPost(config, canOpen, before.next, imagePath, EmbedPrompt(text, bubbleHint, styleHint), maskPath);
    && embed == ImageResult(ResultAfter(server, before.log, post))
    && after == Session(LogAfter(before.log, post), before.next + HandlesTaken(canOpen, imagePath, maskPath))
  }

  /**
   * What the two-step flow does to the client's session: rewrite_dialogue
   * posts its chat request and records what the service answered; only when
   * that gave a result does embed_text post its edit, with handles from the
   * session's next one, and record what the service answered to that.
   */
  ghost predicate TwoStepPosts(config: ApiConfig, server: (nat, Request) -> Outcome, canOpen: Path -> bool,
                               before: Session, sourceText: string, targetLanguage: string, imagePath: Path,
                               bubbleHint: Option<string>, maskPath: Option<Path>, styleHint: Option<string>,
                               calls: seq<Call>, after: Session): (b: bool)
    ensures b ==> && before.log <= after.log && |before.log| < |after.log| <= |before.log| + 2
                  && after.log[|before.log|] == RewriteRequest(config, sourceText, targetLanguage)
                  && before.next <= after.next <= before.next + 2
  {
    var mid := Session(before.log + [RewriteRequest(config, sourceText, targetLanguage)], before.next);
    && |calls| >= 1
    && calls[0].Rewrite?
    && match calls[0].rewritten
       case Err(_) => RewritePosted(config, server, before, sourceText, targetLanguage, calls[0].rewritten, after)
       case Ok(dialogue) =>
         && |calls| == 2
         && calls[1].Embed?
         && RewritePosted(config, server, before, sourceText, targetLanguage, calls[0].rewritten, mid)
         && EmbedPosted(config, server, canOpen, mid, imagePath, dialogue.text, bubbleHint, maskPath, styleHint,
                        calls[1].embedded, after)
  }

  /**
   * What auto mode does to the client's session: auto_localize posts its
   * edit when the files open, with handles from the session's next one, and
   * records what the service answered, or the error raised before posting.
   */
  ghost predicate AutoPosts(config: ApiConfig, server: (nat, Request) -> Outcome, canOpen: Path -> bool,
                            before: Session, imagePath: Path, targetLanguage: string, bubbleHint: Option<string>,
                            maskPath: Option<Path>, styleHint: Option<string>, calls: seq<Call>, after: Session): (b: bool)
    ensures b ==> before.log <= after.log
    ensures b ==> (|after.log| == |before.log| + 1 <==> FilesOpen(canOpen, imagePath, maskPath))
    ensures b ==> (|after.log| == |before.log| <==> !FilesOpen(canOpen, imagePath, maskPath))
    ensures b && !canOpen(imagePath) ==> after == before
  {
    var post := EmbedPost(config, canOpen, before.next, imagePath, AutoPrompt(targetLanguage, bubbleHint, styleHint), maskPath);
    && |calls| == 1
    && calls[0].Auto?
    && calls[0].embedded == ImageResult(ResultAfter(server, before.log, post))
    && after == Session(LogAfter(before.log, post), before.next + HandlesTaken(canOpen, imagePath, maskPath))
  }

  /**
   * A rewrite that raised ends the two-step flow: its one call, its one chat
   * request, and the rewrite's error.
   */
  lemma RewriteFailedPosts(config: ApiConfig, server: (nat, Request) -> Outcome, canOpen: Path -> bool,
                           before: Session, sourceText: string, targetLanguage: string, tone: string, imagePath: Path,
                           bubbleHint: Option<string>, maskPath: Option<Path>, styleHint: Option<string>,
                           dialogue: Result<DialogueRewriteResult, Error>, after: Session, calls: seq<Call>)
    requires RewritePosted(config, server, before, sourceText, targetLanguage, dialogue, after)
    requires dialogue.Err?
    requires calls == [Rewrite(sourceText, targetLanguage, tone, dialogue)]
    ensures TwoStepTrace(imagePath, sourceText, targetLanguage, tone, bubbleHint, maskPath, styleHint, calls, Err(dialogue.error))
    ensures TwoStepPosts(config, server, canOpen, before, sourceText, targetLanguage, imagePath, bubbleHint, maskPath,
                         styleHint, calls, after)
    ensures |after.log| == |before.log| + PostsOf(canOpen, calls)
    ensures after.next == before.next + HandlesOf(canOpen, calls)
  {
    var rewrite := Rewrite(sourceText, targetLanguage, tone, dialogue);
    PairAccounting(canOpen, rewrite, rewrite);
  }

  /**
   * A rewrite that gave a result, then the edit that embeds its text: the two
   * calls, the chat request then the edit's, and the PanelResult of both.
   */
  lemma RewrittenPosts(config: ApiConfig, server: (nat, Request) -> Outcome, canOpen: Path -> bool,
                       before: Session, sourceText: string, targetLanguage: string, tone: string, imagePath: Path,
                       bubbleHint: Option<string>, maskPath: Option<Path>, styleHint: Option<string>,
                       dialogue: Result<DialogueRewriteResult, Error>, mid: Session,
                       embed: Result<EmbedResult, Error>, after: Session, r: Result<PanelResult, Error>,
                       calls: seq<Call>)
    requires RewritePosted(config, server, before, sourceText, targetLanguage, dialogue, mid)
    requires dialogue.Ok?
    requires EmbedPosted(config, server, canOpen, mid, imagePath, dialogue.value.text, bubbleHint, maskPath, styleHint,
                         embed, after)
    requires |after.log| == |mid.log| + CallPosts(canOpen, Embed(imagePath, dialogue.value.text, bubbleHint, maskPath, styleHint, embed))
    requires embed.Err? ==> r == Err(embed.error)
    requires embed.Ok? ==> r == Ok(PanelResult(dialogue.value.text, embed.value.imageB64,
                                               dialogue.value.rawResponse, embed.value.rawResponse))
    requires calls == [Rewrite(sourceText, targetLanguage, tone, dialogue),
                       Embed(imagePath, dialogue.value.text, bubbleHint, maskPath, styleHint, embed)]
    ensures TwoStepTrace(imagePath, sourceText, targetLanguage, tone, bubbleHint, maskPath, styleHint, calls, r)
    ensures TwoStepPosts(config, server, canOpen, before, sourceText, targetLanguage, imagePath, bubbleHint, maskPath,
                         styleHint, calls, after)
    ensures |after.log| == |before.log| + PostsOf(canOpen, calls)
    ensures after.next == before.next + HandlesOf(canOpen, calls)
  {
    PairAccounting(canOpen, Rewrite(sourceText, targetLanguage, tone, dialogue),
                   Embed(imagePath, dialogue.value.text, bubbleHint, maskPath, styleHint, embed));
  }

  /** What was appended to a trace can be read back from its end. */
  lemma AppendedTail<T>(before: seq<T>, added: seq<T>)
    ensures |before + added| >= |before| && (before + added)[..|before|] == before
    ensures (before + added)[|before|..] == added
  {
  }

  /** Two calls recorded one after the other can be read back from the trace's end. */
  lemma AppendedPair<T>(before: seq<T>, first: T, second: T)
    ensures |before + [first] + [second]| >= |before| && (before + [first] + [second])[..|before|] == before
    ensures (before + [first] + [second])[|before|..] == [first, second]
  {
  }

  /** The POSTs and file handles of two embedder calls in a row are those of each. */
  lemma PairAccounting(canOpen: Path -> bool, first: Call, second: Call)
    ensures PostsOf(canOpen, [first]) == CallPosts(canOpen, first)
    ensures HandlesOf(canOpen, [first]) == CallHandles(canOpen, first)
    ensures PostsOf(canOpen, [first, second]) == CallPosts(canOpen, first) + CallPosts(canOpen, second)
    ensures HandlesOf(canOpen, [first, second]) == CallHandles(canOpen, first) + CallHandles(canOpen, second)
  {
    assert [first][1..] == [] && [first, second][1..] == [second] && [second][1..] == [];
  }

  class TypesettingPipeline {
    const config: ApiConfig
    const client: NyaMangaClient
    const embedder: MangaEmbedder

    ghost predicate Valid()
      reads client`openFiles, client`nextHandle
    {
      embedder.client == client && client.Valid()
    }

    constructor Init(config: ApiConfig, client: NyaMangaClient)
      requires client.Valid()
      ensures this.config == config && this.client == client
      ensures fresh(embedder) && embedder.calls == []
      ensures Valid()
    {
      this.config := config;
      this.client := client;
      embedder := new MangaEmbedder(client);
    }

    /**
     * TypesettingPipeline(config, client): the config given, else
     * ApiConfig.from_env() (which may raise, whether or not a client is
     * given); the client given, else a new one built from that config.
     */
    static method Create(config: Option<ApiConfig>, client: Option<NyaMangaClient>,
                         env: Env, parseFloat: string -> Option<real>,
                         server: (nat, Request) -> Outcome, canOpen: Path -> bool)
      returns (r: Result<TypesettingPipeline, Error>)
      requires client.Some? ==> client.value.Valid()
      ensures config.None? && FromEnv(env, parseFloat).Err? ==> r == Err(FromEnv(env, parseFloat).error)
      ensures config.Some? || FromEnv(env, parseFloat).Ok? ==> r.Ok?
      ensures r.Ok? ==> && r.value.Valid() && fresh(r.value.embedder) && r.value.embedder.calls == []
                        && r.value.config == (if config.Some? then config.value else FromEnv(env, parseFloat).value)
      ensures r.Ok? && client.Some? ==> r.value.client == client.value
      ensures r.Ok? && client.None? ==> && fresh(r.value.client)
                                        && r.value.client.config == r.value.config
                                        && r.value.client.authorization == Authorization(r.value.config.apiKey)
                                        && r.value.client.server == server && r.value.client.canOpen == canOpen
                                        && r.value.client.sent == [] && r.value.client.openFiles == {}
    {
      var resolved: ApiConfig;
      if config.Some? {
        resolved := config.value;
      } else {
        var loaded := FromEnv(env, parseFloat);
        if loaded.Err? {
          return Err(loaded.error);
        }
        resolved := loaded.value;
      }
      var c: NyaMangaClient;
      if client.Some? {
        c := client.value;
      } else {
        c := new NyaMangaClient(resolved, server, canOpen);
      }
      var p := new TypesettingPipeline.Init(resolved, c);
      r := Ok(p);
    }

    /**
     * localize_panel: with a non-empty source text, the two-step flow; with
     * None or "", auto mode. Every error of a step propagates unchanged.
     */
    method LocalizePanel(imagePath: Path, sourceText: Option<string> := None, targetLanguage: string := "zh",
                         tone: string := "friendly manga voice", bubbleHint: Option<string> := None,
                         maskPath: Option<Path> := None, styleHint: Option<string> := None)
      returns (r: Result<PanelResult, Error>)
      requires Valid()
      modifies embedder`calls, client`openFiles, client`nextHandle, client`sent
      ensures Valid() && client.openFiles == old(client.openFiles)
      ensures |embedder.calls| >= |old(embedder.calls)| && embedder.calls[..|old(embedder.calls)|] == old(embedder.calls)
      ensures old(client.sent) <= client.sent
      ensures |client.sent| == |old(client.sent)| + PostsOf(client.canOpen, embedder.calls[|old(embedder.calls)|..])
      ensures client.nextHandle == old(client.nextHandle) + HandlesOf(client.canOpen, embedder.calls[|old(embedder.calls)|..])
      ensures Given(sourceText) ==>
        TwoStepTrace(imagePath, sourceText.value, targetLanguage, tone, bubbleHint, maskPath, styleHint,
                     embedder.calls[|old(embedder.calls)|..], r)
      ensures !Given(sourceText) ==>
        AutoTrace(imagePath, targetLanguage, bubbleHint, maskPath, styleHint,
                  embedder.calls[|old(embedder.calls)|..], r)
      ensures Given(sourceText) ==>
        TwoStepPosts(client.config, client.server, client.canOpen, Session(old(client.sent), old(client.nextHandle)),
                     sourceText.value, targetLanguage, imagePath, bubbleHint, maskPath, styleHint,
                     embedder.calls[|old(embedder.calls)|..], Session(client.sent, client.nextHandle))
      ensures !Given(sourceText) ==>
        AutoPosts(client.config, client.server, client.canOpen, Session(old(client.sent), old(client.nextHandle)),
                  imagePath, targetLanguage, bubbleHint, maskPath, styleHint,
                  embedder.calls[|old(embedder.calls)|..], Session(client.sent, client.nextHandle))
    {
      if Given(sourceText) {
        r := LocalizeTwoStep(imagePath, sourceText.value, targetLanguage, tone, bubbleHint, maskPath, styleHint);
      } else {
        r := LocalizeAuto(imagePath, targetLanguage, bubbleHint, maskPath, styleHint);
      }
    }

    /** The branch of localize_panel taken when a source text is given. */
    method LocalizeTwoStep(imagePath: Path, sourceText: string, targetLanguage: string, tone: string,
                           bubbleHint: Option<string>, maskPath: Option<Path>, styleHint: Option<string>)
      returns (r: Result<PanelResult, Error>)
      requires Valid()
      modifies embedder`calls, client`openFiles, client`nextHandle, client`sent
      ensures Valid() && client.openFiles == old(client.openFiles)
      ensures |embedder.calls| >= |old(embedder.calls)| && embedder.calls[..|old(embedder.calls)|] == old(embedder.calls)
      ensures old(client.sent) <= client.sent
      ensures |client.sent| == |old(client.sent)| + PostsOf(client.canOpen, embedder.calls[|old(embedder.calls)|..])
      ensures client.nextHandle == old(client.nextHandle) + HandlesOf(client.canOpen, embedder.calls[|old(embedder.calls)|..])
      ensures TwoStepTrace(imagePath, sourceText, targetLanguage, tone, bubbleHint, maskPath, styleHint,
                           embedder.calls[|old(embedder.calls)|..], r)
      ensures TwoStepPosts(client.config, client.server, client.canOpen, Session(old(client.sent), old(client.nextHandle)),
                           sourceText, targetLanguage, imagePath, bubbleHint, maskPath, styleHint,
                           embedder.calls[|old(embedder.calls)|..], Session(client.sent, client.nextHandle))
    {
      ghost var before := embedder.calls;
      ghost var start := Session(client.sent, client.nextHandle);
      var dialogue := RewriteStep(sourceText, targetLanguage, tone);
      if dialogue.Err? {
        r := Err(dialogue.error);
        AppendedTail(before, [Rewrite(sourceText, targetLanguage, tone, dialogue)]);
        RewriteFailedPosts(client.config, client.server, client.canOpen, start,
                           sourceText, targetLanguage, tone, imagePath, bubbleHint, maskPath, styleHint, dialogue,
                           Session(client.sent, client.nextHandle), embedder.calls[|before|..]);
        return;
      }
      ghost var mid := Session(client.sent, client.nextHandle);
      ghost var embed;
      r, embed := EmbedRewritten(imagePath, dialogue.value, bubbleHint, maskPath, styleHint);
      AppendedPair(before, Rewrite(sourceText, targetLanguage, tone, dialogue),
                   Embed(imagePath, dialogue.value.text, bubbleHint, maskPath, styleHint, embed));
      RewrittenPosts(client.config, client.server, client.canOpen, start,
                     sourceText, targetLanguage, tone, imagePath, bubbleHint, maskPath, styleHint, dialogue, mid, embed,
                     Session(client.sent, client.nextHandle), r, embedder.calls[|before|..]);
    }

    /** The first step of the two-step flow: rewrite_dialogue on the source text. */
    method RewriteStep(sourceText: string, targetLanguage: string, tone: string)
      returns (dialogue: Result<DialogueRewriteResult, Error>)
      requires Valid()
      modifies embedder`calls, client`sent
      ensures Valid() && client.openFiles == old(client.openFiles)
      ensures embedder.calls == old(embedder.calls) + [Rewrite(sourceText, targetLanguage, tone, dialogue)]
      ensures old(client.sent) <= client.sent && |client.sent| == |old(client.sent)| + 1
      ensures client.nextHandle == old(client.nextHandle)
      ensures RewritePosted(client.config, client.server, Session(old(client.sent), old(client.nextHandle)),
                            sourceText, targetLanguage, dialogue, Session(client.sent, client.nextHandle))
    {
      dialogue := embedder.RewriteDialogue(sourceText, targetLanguage, tone);
    }

    /**
     * The second step of the two-step flow: embed_text with the rewritten
     * text, and the PanelResult made of both steps' results.
     */
    method EmbedRewritten(imagePath: Path, dialogue: DialogueRewriteResult,
                          bubbleHint: Option<string>, maskPath: Option<Path>, styleHint: Option<string>)
      returns (r: Result<PanelResult, Error>, ghost embed: Result<EmbedResult, Error>)
      requires Valid()
      modifies embedder`calls, client`openFiles, client`nextHandle, client`sent
      ensures Valid() && client.openFiles == old(client.openFiles)
      ensures embedder.calls == old(embedder.calls) + [Embed(imagePath, dialogue.text, bubbleHint, maskPath, styleHint, embed)]
      ensures old(client.sent) <= client.sent
      ensures |client.sent| == |old(client.sent)| + CallPosts(client.canOpen, Embed(imagePath, dialogue.text, bubbleHint, maskPath, styleHint, embed))
      ensures client.nextHandle == old(client.nextHandle) + HandlesTaken(client.canOpen, imagePath, maskPath)
      ensures EmbedPosted(client.config, client.server, client.canOpen, Session(old(client.sent), old(client.nextHandle)),
                          imagePath, dialogue.text, bubbleHint, maskPath, styleHint, embed,
                          Session(client.sent, client.nextHandle))
      ensures embed.Err? ==> r == Err(embed.error)
      ensures embed.Ok? ==> r == Ok(PanelResult(dialogue.text, embed.value.imageB64, dialogue.rawResponse, embed.value.rawResponse))
    {
      var embedded := embedder.EmbedText(imagePath, dialogue.text, bubbleHint, maskPath, styleHint);
      embed := embedded;
      if embedded.Err? {
        r := Err(embedded.error);
      } else {
        r := Ok(PanelResult(dialogue.text, embedded.value.imageB64, dialogue.rawResponse, embedded.value.rawResponse));
      }
    }

    /** The branch of localize_panel taken when the source text is None or "". */
    method LocalizeAuto(imagePath: Path, targetLanguage: string,
                        bubbleHint: Option<string>, maskPath: Option<Path>, styleHint: Option<string>)
      returns (r: Result<PanelResult, Error>)
      requires Valid()
      modifies embedder`calls, client`openFiles, client`nextHandle, client`sent
      ensures Valid() && client.openFiles == old(client.openFiles)
      ensures |embedder.calls| >= |old(embedder.calls)| && embedder.calls[..|old(embedder.calls)|] == old(embedder.calls)
      ensures old(client.sent) <= client.sent
      ensures |client.sent| == |old(client.sent)| + PostsOf(client.canOpen, embedder.calls[|old(embedder.calls)|..])
      ensures client.nextHandle == old(client.nextHandle) + HandlesOf(client.canOpen, embedder.calls[|old(embedder.calls)|..])
      ensures AutoTrace(imagePath, targetLanguage, bubbleHint, maskPath, styleHint,
                        embedder.calls[|old(embedder.calls)|..], r)
      ensures AutoPosts(client.config, client.server, client.canOpen, Session(old(client.sent), old(client.nextHandle)),
                        imagePath, targetLanguage, bubbleHint, maskPath, styleHint,
                        embedder.calls[|old(embedder.calls)|..], Session(client.sent, client.nextHandle))
    {
      ghost var before := embedder.calls;
      var embed := embedder.AutoLocalize(imagePath, targetLanguage, bubbleHint, maskPath, styleHint);
      assert embedder.calls[|before|..] == [Auto(imagePath, targetLanguage, bubbleHint, maskPath, styleHint, embed)];
      if embed.Err? {
        return Err(embed.error);
      }
      r := Ok(PanelResult("", embed.value.imageB64, EmptyObject, embed.value.rawResponse));
    }

    /** close(): closes the client. */
    method Close()
      modifies client`closed
      ensures client.closed
    {
      client.Close();
    }

    /** __enter__: the pipeline itself. */
    method Enter() returns (p: TypesettingPipeline)
      ensures p == this
    {
      p := this;
    }

    /** __exit__: closes the client whatever ended the with-block. */
    method Exit()
      modifies client`closed
      ensures client.closed
    {
      Close();
    }
  }
}
