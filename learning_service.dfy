/** The learning service: choosing the content source of a request, and turning content into a
    mind map, a multiple-choice quiz or flashcards with the LLM. The LLM, `json.loads`, building a
    `MindmapNode` from parsed JSON, and the YouTube extraction are supplied as functions. */
module LearningService {
  import opened Wrappers
  import opened Text
  import opened Schema
  import MediaProcessor

  // ---------------------------------------------------------------------------------------
  // Cleaning an LLM reply

  /** The cleaning every raw LLM reply goes through before `json.loads`: strip, drop the fences,
      and strip again. */
  function CleanFences(raw: string): string {
    Strip(Unfence(Strip(raw)))
  }

  /** The cleaned reply neither begins nor ends with whitespace. */
  lemma CleanedIsStripped(raw: string)
    ensures var r := CleanFences(raw); r == [] || (!IsSpace(r[0]) && !IsSpace(r[|r| - 1]))
  {
    var _ := StripFacts(Unfence(Strip(raw)));
  }

  /** The fence drops between the two strips: a leading "```json" (the first `a` characters),
      then a leading "```" of what is left (the next `b`), then a trailing "```" (up to `e`). */
  function Unfence(s: string): string {
    var a := if StartsWith(s, "```json") then 7 else 0;
    var b := if StartsWith(s[a..], "```") then 3 else 0;
    var e := if EndsWith(s[a + b..], "```") then |s| - 3 else |s|;
    s[a + b..e]
  }

  /** The cleaning as each `generate_*` method writes it, reassigning the reply step by step. */
  method CleanReply(raw: string) returns (reply: string)
    ensures reply == CleanFences(raw)
  {
    reply := Strip(raw);
    ghost var s := reply;
    if StartsWith(reply, "```json") {
      reply := reply[7..];
    }
    if StartsWith(reply, "```") {
      reply := reply[3..];
    }
    assert reply == s[|s| - |reply|..];
    if EndsWith(reply, "```") {
      reply := reply[..|reply| - 3];
    }
    assert reply == Unfence(s);
    reply := Strip(reply);
  }

  /** The cleaned reply is one contiguous block of the raw reply. */
  lemma CleanedOccursInRaw(raw: string)
    ensures exists i :: OccursAt(CleanFences(raw), raw, i)
  {
    var i0 := StripOccurs(raw);
    var k := UnfenceOccurs(Strip(raw));
    var i3 := StripOccurs(Unfence(Strip(raw)));
    SubstringTransitive(CleanFences(raw), Unfence(Strip(raw)), Strip(raw), i3, k);
    SubstringTransitive(CleanFences(raw), Strip(raw), raw, i3 + k, i0);
  }

  /** What the fence drops keep is one block of their input. */
  lemma UnfenceOccurs(s: string) returns (k: int)
    ensures OccursAt(Unfence(s), s, k)
  {
    var a := if StartsWith(s, "```json") then 7 else 0;
    var b := if StartsWith(s[a..], "```") then 3 else 0;
    k := a + b;
  }

  /** Between the fences "```json" and "```" only the inner text is kept, when it does not begin
      with a backquote. */
  lemma UnfenceFenced(inner: string)
    requires inner == [] || inner[0] != '`'
    ensures Unfence("```json" + inner + "```") == inner
  {
    var x := "```json" + inner + "```";
    assert x[..7] == "```json";
    assert x[7..] == inner + "```";
    if inner == [] {
      assert x[7..][..3] == "```";
      assert x[10..] == [];
    } else {
      assert x[7..][0] == inner[0];
      assert x[7..][|x| - 10..] == "```";
      assert x[7..|x| - 3] == inner;
    }
  }

  /** A reply fenced as "```json" ... "```", with any whitespace around the fences and around the
      body, cleans to the stripped body, provided the opening fence is followed by whitespace or the body
      does not itself begin with a backquote. */
  lemma FencedReply(w1: string, w2: string, body: string, w3: string, w4: string)
    requires AllSpace(w1) && AllSpace(w2) && AllSpace(w3) && AllSpace(w4)
    requires w2 != [] || body == [] || body[0] != '`'
    ensures CleanFences(w1 + "```json" + w2 + body + w3 + "```" + w4) == Strip(body)
  {
    var inner := w2 + body + w3;
    var x := "```json" + inner + "```";
    FencedLayout(w1, w2, body, w3, w4);
    StripAround(w1, x, w4);
    StripUnpadded(x);
    InnerStartsWithoutBackquote(w2, body, w3);
    UnfenceFenced(inner);
    StripAround(w2, body, w3);
  }

  lemma FencedLayout(w1: string, w2: string, body: string, w3: string, w4: string)
    ensures w1 + "```json" + w2 + body + w3 + "```" + w4 == w1 + ("```json" + (w2 + body + w3) + "```") + w4
    ensures var x := "```json" + (w2 + body + w3) + "```"; x[0] == '`' && x[|x| - 1] == '`'
  {
  }

  lemma InnerStartsWithoutBackquote(w2: string, body: string, w3: string)
    requires AllSpace(w2) && AllSpace(w3)
    requires w2 != [] || body == [] || body[0] != '`'
    ensures var inner := w2 + body + w3; inner == [] || inner[0] != '`'
  {
    var inner := w2 + body + w3;
    if w2 != [] {
      assert inner[0] == w2[0];
    } else if body != [] {
      assert inner[0] == body[0];
    } else if w3 != [] {
      assert inner[0] == w3[0];
    }
  }

  /** Text with no fence at either end passes the fence drops unchanged. */
  lemma UnfencePlain(s: string)
    requires !StartsWith(s, "```") && !EndsWith(s, "```")
    ensures Unfence(s) == s
  {
    LongFenceStartsWithShort(s);
    assert s[0..] == s;
  }

  lemma LongFenceStartsWithShort(s: string)
    ensures StartsWith(s, "```json") ==> StartsWith(s, "```")
  {
    if |s| >= 7 {
      assert s[..3] == s[..7][..3];
    }
  }

  /** A reply with no fence after stripping is only stripped. */
  lemma UnfencedReply(raw: string)
    requires !StartsWith(Strip(raw), "```") && !EndsWith(Strip(raw), "```")
    ensures CleanFences(raw) == Strip(raw)
  {
    UnfencePlain(Strip(raw));
    StripIdempotent(raw);
  }

  // ---------------------------------------------------------------------------------------
  // Parsed JSON

  /** A value `json.loads` can return. */
  datatype Json =
    | JNull
    | JBool(b: bool)
    | JInt(i: int)
    | JFloat(literal: string)
    | JString(s: string)
    | JArray(items: seq<Json>)
    | JObject(members: map<string, Json>)

  /** Python's `len()` on such a value: strings, lists and dicts have one; anything else raises a
      `TypeError`. */
  function PyLen(v: Json): (r: Outcome<nat>)
    ensures r.Returns? <==> v.JString? || v.JArray? || v.JObject?
    ensures v.JArray? ==> r == Returns(|v.items|)
  {
    match v
    case JString(s) => Returns(|s|)
    case JArray(items) => Returns(|items|)
    case JObject(members) => Returns(|members|)
    case JNull => Raises("object of type 'NoneType' has no len()")
    case JBool(_) => Raises("object of type 'bool' has no len()")
    case JInt(_) => Raises("object of type 'int' has no len()")
    case JFloat(_) => Raises("object of type 'float' has no len()")
  }

  // ---------------------------------------------------------------------------------------
  // The LLM and parsing services

  datatype Prompt = MindmapGenerationPrompt | FlashcardGenerationPrompt

  datatype LlmServices = LlmServices(
    runPrompt: (Prompt, string) -> Outcome<string>,                    // `run_prompt(system, input)`
    structuredQuiz: (string, int) -> Outcome<seq<MCQQuestionStructured>>,  // structured output for (content, num_questions)
    parseJson: string -> Result<Json>,                                 // `json.loads`, or the JSONDecodeError text
    buildMindmap: Json -> Outcome<MindmapNode>)                        // `MindmapNode(**data)`

  datatype ContentType = AudioContent | VideoContent | DocumentContent | YouTubeContent | TextContent

  /** The `content_type` string of a response. */
  function Tag(c: ContentType): string {
    match c
    case AudioContent => "audio"
    case VideoContent => "video"
    case DocumentContent => "document"
    case YouTubeContent => "youtube"
    case TextContent => "text"
  }

  /** Distinct sources are reported under distinct `content_type` strings. */
  lemma TagsDistinct(a: ContentType, b: ContentType)
    requires a != b
    ensures Tag(a) != Tag(b)
  {
  }

  /** Where the content of a multimedia response came from, and the content itself. */
  datatype Origin = Origin(contentType: ContentType, content: string)

  /** The response dictionary: `success` with the product (and, for the multimedia variants, its
      origin), or `success: False` with an error message. */
  datatype Response<+T> = Success(data: T, origin: Option<Origin>) | Failure(error: string)

  /** The error for a reply that `json.loads` refuses: the decoder's message and the first 200
      characters of the cleaned reply, or all of it when it is shorter. */
  function JsonErrorMessage(what: string, e: string, cleaned: string): (m: string)
    ensures exists quoted :: |quoted| == (if |cleaned| < 200 then |cleaned| else 200)
                             && StartsWith(cleaned, quoted)
                             && m == "Failed to parse " + what + " JSON: " + e + ". Raw response: " + quoted + "..."
  {
    "Failed to parse " + what + " JSON: " + e + ". Raw response: " + Take(cleaned, 200) + "..."
  }

  // ---------------------------------------------------------------------------------------
  // Generation from known content

  /** `generate_mindmap`: the tree is built from the LLM's reply cleaned of fences and parsed; a
      failure of the LLM call or of the tree building is reported with the mindmap prefix (a
      parse failure: `MindmapParseFailure`). */
  function GenerateMindmap(topic: string, llm: LlmServices): (r: Response<MindmapNode>)
    ensures r.Success? <==> llm.runPrompt(MindmapGenerationPrompt, topic).Returns?
                            && llm.parseJson(CleanFences(llm.runPrompt(MindmapGenerationPrompt, topic).value)).Ok?
                            && llm.buildMindmap(llm.parseJson(CleanFences(llm.runPrompt(MindmapGenerationPrompt, topic).value)).value).Returns?
    ensures r.Success? ==>
      var parsed := llm.parseJson(CleanFences(llm.runPrompt(MindmapGenerationPrompt, topic).value)).value;
      r.origin.None? && r.data == llm.buildMindmap(parsed).value
    ensures llm.runPrompt(MindmapGenerationPrompt, topic).Raises? ==>
      r == Failure("Error generating mindmap: " + llm.runPrompt(MindmapGenerationPrompt, topic).message)
    ensures llm.runPrompt(MindmapGenerationPrompt, topic).Returns?
            && llm.parseJson(CleanFences(llm.runPrompt(MindmapGenerationPrompt, topic).value)).Ok? ==>
      var parsed := llm.parseJson(CleanFences(llm.runPrompt(MindmapGenerationPrompt, topic).value)).value;
      llm.buildMindmap(parsed).Raises? ==> r == Failure("Error generating mindmap: " + llm.buildMindmap(parsed).message)
  {
    match llm.runPrompt(MindmapGenerationPrompt, topic)
    case Raises(e) => Failure("Error generating mindmap: " + e)
    case Returns(raw) =>
      var cleaned := CleanFences(raw);
      match llm.parseJson(cleaned)
      case Err(e) => Failure(JsonErrorMessage("mindmap", e, cleaned))
      case Ok(data) =>
        match llm.buildMindmap(data)
        case Raises(e) => Failure("Error generating mindmap: " + e)
        case Returns(m) => Success(m, None)
  }

  /** One structured question with its four options gathered into a list. */
  function ToQuestion(q: MCQQuestionStructured): MCQQuestion {
    MCQQuestion(q.question, [q.optionA, q.optionB, q.optionC, q.optionD], q.correctAnswer, q.explanation)
  }

  /** The converted quiz: one question per structured question, in the same order, with options
      exactly A, B, C, D and the answer and explanation copied unchanged. */
  function Converted(qs: seq<MCQQuestionStructured>): (r: seq<MCQQuestion>)
    ensures |r| == |qs|
    ensures forall i :: 0 <= i < |qs| ==>
              && r[i].question == qs[i].question
              && r[i].options == [qs[i].optionA, qs[i].optionB, qs[i].optionC, qs[i].optionD]
              && r[i].correctAnswer == qs[i].correctAnswer
              && r[i].explanation == qs[i].explanation
  {
    if qs == [] then [] else Converted(qs[..|qs| - 1]) + [ToQuestion(qs[|qs| - 1])]
  }

  /** The conversion loop: appends one converted question per structured question. */
  method ConvertQuestions(structured: seq<MCQQuestionStructured>) returns (questions: seq<MCQQuestion>)
    ensures questions == Converted(structured)
  {
    questions := [];
    for i := 0 to |structured|
      invariant questions == Converted(structured[..i])
    {
      assert structured[..i + 1][..i] == structured[..i];
      questions := questions + [ToQuestion(structured[i])];
    }
    assert structured[..|structured|] == structured;
  }

  /** `generate_mcq_quiz`: the requested number of questions goes into the prompt only; the quiz
      has exactly as many questions as the structured output. */
  function GenerateMCQQuiz(content: string, numQuestions: int, llm: LlmServices): (r: Response<seq<MCQQuestion>>)
    ensures r.Success? <==> llm.structuredQuiz(content, numQuestions).Returns?
    ensures r.Success? ==> r.origin.None? && r.data == Converted(llm.structuredQuiz(content, numQuestions).value)
    ensures r.Failure? ==> r.error == "Error generating MCQ quiz: " + llm.structuredQuiz(content, numQuestions).message
  {
    match llm.structuredQuiz(content, numQuestions)
    case Raises(e) => Failure("Error generating MCQ quiz: " + e)
    case Returns(qs) => Success(Converted(qs), None)
  }

  /** The flashcards of a response: the parsed JSON as it is, and `len()` of it. */
  datatype FlashcardDeck = FlashcardDeck(cards: Json, totalCards: nat)

  /** `generate_flashcards`: the cards are the LLM's reply cleaned of fences and parsed, counted
      with `len()`; a failure of the LLM call or of `len()` is reported with the flashcards prefix
      (a parse failure: `FlashcardsParseFailure`). */
  function GenerateFlashcards(content: string, llm: LlmServices): (r: Response<FlashcardDeck>)
    ensures r.Success? <==> llm.runPrompt(FlashcardGenerationPrompt, content).Returns?
                            && llm.parseJson(CleanFences(llm.runPrompt(FlashcardGenerationPrompt, content).value)).Ok?
                            && PyLen(llm.parseJson(CleanFences(llm.runPrompt(FlashcardGenerationPrompt, content).value)).value).Returns?
    ensures r.Success? ==>
      && r.origin.None?
      && r.data.cards == llm.parseJson(CleanFences(llm.runPrompt(FlashcardGenerationPrompt, content).value)).value
      && (r.data.cards.JString? || r.data.cards.JArray? || r.data.cards.JObject?)
      && Returns(r.data.totalCards) == PyLen(r.data.cards)
    ensures r.Success? && r.data.cards.JArray? ==> r.data.totalCards == |r.data.cards.items|
    ensures llm.runPrompt(FlashcardGenerationPrompt, content).Raises? ==>
      r == Failure("Error generating flashcards: " + llm.runPrompt(FlashcardGenerationPrompt, content).message)
    ensures llm.runPrompt(FlashcardGenerationPrompt, content).Returns?
            && llm.parseJson(CleanFences(llm.runPrompt(FlashcardGenerationPrompt, content).value)).Ok? ==>
      var parsed := llm.parseJson(CleanFences(llm.runPrompt(FlashcardGenerationPrompt, content).value)).value;
      PyLen(parsed).Raises? ==> r == Failure("Error generating flashcards: " + PyLen(parsed).message)
  {
    match llm.runPrompt(FlashcardGenerationPrompt, content)
    case Raises(e) => Failure("Error generating flashcards: " + e)
    case Returns(raw) =>
      var cleaned := CleanFences(raw);
      match llm.parseJson(cleaned)
      case Err(e) => Failure(JsonErrorMessage("flashcards", e, cleaned))
      case Ok(data) =>
        match PyLen(data)
        case Raises(e) => Failure("Error generating flashcards: " + e)
        case Returns(n) => Success(FlashcardDeck(data, n), None)
  }

  /** A reply that `json.loads` refuses gives the parse error, quoting at most 200 characters of
      the cleaned reply. */
  lemma MindmapParseFailure(topic: string, llm: LlmServices)
    requires llm.runPrompt(MindmapGenerationPrompt, topic).Returns?
    requires llm.parseJson(CleanFences(llm.runPrompt(MindmapGenerationPrompt, topic).value)).Err?
    ensures GenerateMindmap(topic, llm).Failure?
    ensures GenerateMindmap(topic, llm).error
         == JsonErrorMessage("mindmap", llm.parseJson(CleanFences(llm.runPrompt(MindmapGenerationPrompt, topic).value)).message,
                             CleanFences(llm.runPrompt(MindmapGenerationPrompt, topic).value))
  {
  }

  /** The same for flashcards: the parse error, under the "flashcards" wording. */
  lemma FlashcardsParseFailure(content: string, llm: LlmServices)
    requires llm.runPrompt(FlashcardGenerationPrompt, content).Returns?
    requires llm.parseJson(CleanFences(llm.runPrompt(FlashcardGenerationPrompt, content).value)).Err?
    ensures GenerateFlashcards(content, llm).Failure?
    ensures GenerateFlashcards(content, llm).error
         == JsonErrorMessage("flashcards", llm.parseJson(CleanFences(llm.runPrompt(FlashcardGenerationPrompt, content).value)).message,
                             CleanFences(llm.runPrompt(FlashcardGenerationPrompt, content).value))
  {
  }

  // ---------------------------------------------------------------------------------------
  // Choosing the source of a multimedia request

  /** The arguments of a `*_from_multimedia` call: the text (`topic` or `content`), the YouTube
      URL and the three uploads, each optional. */
  datatype MultimediaRequest = MultimediaRequest(
    text: Option<string>,
    youtubeUrl: Option<string>,
    audio: Option<MediaProcessor.Upload>,
    video: Option<MediaProcessor.Upload>,
    document: Option<MediaProcessor.Upload>)

  /** The request supplies content of type `c`, with Python's truthiness: an upload with a name,
      a non-empty URL, a text that is not blank. */
  predicate Offers(req: MultimediaRequest, c: ContentType) {
    match c
    case AudioContent => MediaProcessor.Given(req.audio)
    case VideoContent => MediaProcessor.Given(req.video)
    case DocumentContent => MediaProcessor.Given(req.document)
    case YouTubeContent => req.youtubeUrl.Some? && req.youtubeUrl.value != ""
    case TextContent => req.text.Some? && Strip(req.text.value) != ""
  }

  /** Priority of the sources: lower comes first. */
  function Rank(c: ContentType): nat {
    match c
    case AudioContent => 0
    case VideoContent => 1
    case DocumentContent => 2
    case YouTubeContent => 3
    case TextContent => 4
  }

  /** The `if`/`elif` chain: the offered source of highest priority, or none. */
  function SelectSource(req: MultimediaRequest): (r: Option<ContentType>)
    ensures r.None? <==> forall c :: !Offers(req, c)
    ensures r.Some? ==> Offers(req, r.value) && forall c :: Offers(req, c) ==> Rank(r.value) <= Rank(c)
  {
    if MediaProcessor.Given(req.audio) then assert Offers(req, AudioContent); Some(AudioContent)
    else if MediaProcessor.Given(req.video) then assert Offers(req, VideoContent); Some(VideoContent)
    else if MediaProcessor.Given(req.document) then assert Offers(req, DocumentContent); Some(DocumentContent)
    else if req.youtubeUrl.Some? && req.youtubeUrl.value != "" then assert Offers(req, YouTubeContent); Some(YouTubeContent)
    else if req.text.Some? && Strip(req.text.value) != "" then assert Offers(req, TextContent); Some(TextContent)
    else None
  }

  /** Which service is asked for. */
  datatype Product = MindmapProduct | QuizProduct | FlashcardsProduct

  function GenericErrorPrefix(p: Product): string {
    match p
    case MindmapProduct => "Error generating mindmap: "
    case QuizProduct => "Error generating MCQ quiz: "
    case FlashcardsProduct => "Error generating flashcards: "
  }

  function MissingSourceMessage(p: Product): string {
    if p == MindmapProduct then "Either topic, YouTube URL, audio file, video file, or document file must be provided"
    else "Either content, YouTube URL, audio file, video file, or document file must be provided"
  }

  /** Everything a multimedia call depends on besides its arguments. `youtube` stands for
      `media_processor.extract_content_from_youtube`, which is not part of this model. */
  datatype Services = Services(
    media: MediaProcessor.MediaServices,
    youtube: string -> Outcome<Result<string>>,
    llm: LlmServices)

  /** The content of the chosen source: a media extraction with only that file passed, which is
      exactly that file's extraction handler, the YouTube call, or the text itself. */
  function Acquire(req: MultimediaRequest, c: ContentType, env: Services): (r: Outcome<Result<string>>)
    requires Offers(req, c)
    ensures c == AudioContent ==> r == MediaProcessor.Handle(MediaProcessor.Extracting, MediaProcessor.Audio, req.audio.value, env.media)
    ensures c == VideoContent ==> r == MediaProcessor.Handle(MediaProcessor.Extracting, MediaProcessor.Video, req.video.value, env.media)
    ensures c == DocumentContent ==> r == MediaProcessor.Handle(MediaProcessor.Extracting, MediaProcessor.Document, req.document.value, env.media)
    ensures c == YouTubeContent ==> r == env.youtube(req.youtubeUrl.value)
    ensures c == TextContent ==> r == Returns(Ok(req.text.value))
  {
    match c
    case AudioContent => MediaProcessor.ExtractContentFromMedia(req.audio, None, None, env.media)
    case VideoContent => MediaProcessor.ExtractContentFromMedia(None, req.video, None, env.media)
    case DocumentContent => MediaProcessor.ExtractContentFromMedia(None, None, req.document, env.media)
    case YouTubeContent => env.youtube(req.youtubeUrl.value)
    case TextContent => Returns(Ok(req.text.value))
  }

  /** The shared body of the three `*_from_multimedia` methods: choose the source, get its
      content, hand it to `generate`, and tag a success with its origin. An exception anywhere
      becomes the product's generic error. */
  function FromMultimedia<T>(product: Product, req: MultimediaRequest, env: Services, generate: string -> Response<T>): (r: Response<T>)
    ensures SelectSource(req).None? ==> r == Failure(MissingSourceMessage(product))
    ensures r.Success? ==> SelectSource(req).Some? && r.origin.Some? && r.origin.value.contentType == SelectSource(req).value
    ensures r.Success? ==>
      && Acquire(req, r.origin.value.contentType, env) == Returns(Ok(r.origin.value.content))
      && generate(r.origin.value.content).Success?
      && generate(r.origin.value.content).data == r.data
    ensures SelectSource(req).Some? && Acquire(req, SelectSource(req).value, env).Raises? ==>
      r == Failure(GenericErrorPrefix(product) + Acquire(req, SelectSource(req).value, env).message)
    ensures SelectSource(req).Some? ==>
      var c := SelectSource(req).value;
      var a := Acquire(req, c, env);
      && (a.Returns? && a.value.Err? ==> r == Failure(a.value.message))
      && (a.Returns? && a.value.Ok? && generate(a.value.value).Failure? ==> r == generate(a.value.value))
      && (a.Returns? && a.value.Ok? && generate(a.value.value).Success? ==>
            r == Success(generate(a.value.value).data, Some(Origin(c, a.value.value))))
  {
    match SelectSource(req)
    case None => Failure(MissingSourceMessage(product))
    case Some(c) =>
      match Acquire(req, c, env)
      case Raises(e) => Failure(GenericErrorPrefix(product) + e)
      case Returns(Err(e)) => Failure(e)
      case Returns(Ok(content)) =>
        match generate(content)
        case Failure(e) => Failure(e)
        case Success(data, _) => Success(data, Some(Origin(c, content)))
  }

  /** `generate_mindmap_from_multimedia`. */
  function MindmapFromMultimedia(req: MultimediaRequest, env: Services): (r: Response<MindmapNode>)
    ensures r.Success? ==> r.origin.Some? && Some(r.origin.value.contentType) == SelectSource(req)
    ensures r.Success? ==> GenerateMindmap(r.origin.value.content, env.llm) == Success(r.data, None)
    ensures SelectSource(req).None? ==> r == Failure(MissingSourceMessage(MindmapProduct))
    ensures SelectSource(req).Some? ==>
      var c := SelectSource(req).value;
      var a := Acquire(req, c, env);
      && (a.Raises? ==> r == Failure(GenericErrorPrefix(MindmapProduct) + a.message))
      && (a.Returns? && a.value.Err? ==> r == Failure(a.value.message))
      && (a.Returns? && a.value.Ok? && GenerateMindmap(a.value.value, env.llm).Failure? ==> r == GenerateMindmap(a.value.value, env.llm))
      && (a.Returns? && a.value.Ok? && GenerateMindmap(a.value.value, env.llm).Success? ==>
            r == Success(GenerateMindmap(a.value.value, env.llm).data, Some(Origin(c, a.value.value))))
  {
    FromMultimedia(MindmapProduct, req, env, (t: string) => GenerateMindmap(t, env.llm))
  }

  /** `generate_mcq_quiz_from_multimedia`. */
  function MCQQuizFromMultimedia(req: MultimediaRequest, numQuestions: int, env: Services): (r: Response<seq<MCQQuestion>>)
    ensures r.Success? ==> r.origin.Some? && Some(r.origin.value.contentType) == SelectSource(req)
    ensures r.Success? ==> GenerateMCQQuiz(r.origin.value.content, numQuestions, env.llm) == Success(r.data, None)
    ensures r.Success? ==> env.llm.structuredQuiz(r.origin.value.content, numQuestions).Returns?
                           && r.data == Converted(env.llm.structuredQuiz(r.origin.value.content, numQuestions).value)
    ensures SelectSource(req).None? ==> r == Failure(MissingSourceMessage(QuizProduct))
    ensures SelectSource(req).Some? ==>
      var c := SelectSource(req).value;
      var a := Acquire(req, c, env);
      && (a.Raises? ==> r == Failure(GenericErrorPrefix(QuizProduct) + a.message))
      && (a.Returns? && a.value.Err? ==> r == Failure(a.value.message))
      && (a.Returns? && a.value.Ok? && GenerateMCQQuiz(a.value.value, numQuestions, env.llm).Failure? ==> r == GenerateMCQQuiz(a.value.value, numQuestions, env.llm))
      && (a.Returns? && a.value.Ok? && GenerateMCQQuiz(a.value.value, numQuestions, env.llm).Success? ==>
            r == Success(GenerateMCQQuiz(a.value.value, numQuestions, env.llm).data, Some(Origin(c, a.value.value))))
  {
    FromMultimedia(QuizProduct, req, env, (t: string) => GenerateMCQQuiz(t, numQuestions, env.llm))
  }

  /** `generate_flashcards_from_multimedia`. */
  function FlashcardsFromMultimedia(req: MultimediaRequest, env: Services): (r: Response<FlashcardDeck>)
    ensures r.Success? ==> r.origin.Some? && Some(r.origin.value.contentType) == SelectSource(req)
    ensures r.Success? ==> GenerateFlashcards(r.origin.value.content, env.llm) == Success(r.data, None)
    ensures r.Success? && r.data.cards.JArray? ==> r.data.totalCards == |r.data.cards.items|
    ensures SelectSource(req).None? ==> r == Failure(MissingSourceMessage(FlashcardsProduct))
    ensures SelectSource(req).Some? ==>
      var c := SelectSource(req).value;
      var a := Acquire(req, c, env);
      && (a.Raises? ==> r == Failure(GenericErrorPrefix(FlashcardsProduct) + a.message))
      && (a.Returns? && a.value.Err? ==> r == Failure(a.value.message))
      && (a.Returns? && a.value.Ok? && GenerateFlashcards(a.value.value, env.llm).Failure? ==> r == GenerateFlashcards(a.value.value, env.llm))
      && (a.Returns? && a.value.Ok? && GenerateFlashcards(a.value.value, env.llm).Success? ==>
            r == Success(GenerateFlashcards(a.value.value, env.llm).data, Some(Origin(c, a.value.value))))
  {
    FromMultimedia(FlashcardsProduct, req, env, (t: string) => GenerateFlashcards(t, env.llm))
  }

  /** With no usable source the answer is the fixed message, whatever the services would do: no
      extraction and no LLM call takes place. */
  lemma NoSourceNoCall<T>(product: Product, req: MultimediaRequest, env1: Services, env2: Services,
                          g1: string -> Response<T>, g2: string -> Response<T>)
    requires forall c :: !Offers(req, c)
    ensures FromMultimedia(product, req, env1, g1) == FromMultimedia(product, req, env2, g2)
                                                   == Failure(MissingSourceMessage(product))
  {
  }

  /** A blank text is no source: with no upload and no URL, a text of only whitespace is refused
      like a missing one. */
  lemma BlankTextIsNoSource(req: MultimediaRequest)
    requires !MediaProcessor.Given(req.audio) && !MediaProcessor.Given(req.video) && !MediaProcessor.Given(req.document)
    requires req.youtubeUrl.None? || req.youtubeUrl.value == ""
    requires req.text.None? || AllSpace(req.text.value)
    ensures SelectSource(req) == None
  {
    if req.text.Some? {
      var _ := StripFacts(req.text.value);
    }
  }

  /** An extraction error is returned as it is, with no LLM call. */
  lemma ExtractionErrorPassedThrough<T>(product: Product, req: MultimediaRequest, env: Services,
                                        generate: string -> Response<T>, c: ContentType, e: string)
    requires SelectSource(req) == Some(c) && Acquire(req, c, env) == Returns(Err(e))
    ensures FromMultimedia(product, req, env, generate) == Failure(e)
  {
  }

  /** A failed media extraction always has a non-empty message, so the `if error:` test sees
      every failure. */
  lemma MediaFailureNeverSilent(req: MultimediaRequest, c: ContentType, env: Services)
    requires c != YouTubeContent && c != TextContent && Offers(req, c)
    requires Acquire(req, c, env).Returns? && Acquire(req, c, env).value.Err?
    ensures Acquire(req, c, env).value.message != ""
  {
  }

  /** A request with only a non-blank text answers as the plain service does on that text, with
      the origin "text" added to a success. */
  lemma TextOnlyRequest<T>(product: Product, req: MultimediaRequest, env: Services, generate: string -> Response<T>)
    requires !MediaProcessor.Given(req.audio) && !MediaProcessor.Given(req.video) && !MediaProcessor.Given(req.document)
    requires req.youtubeUrl.None? || req.youtubeUrl.value == ""
    requires req.text.Some? && Strip(req.text.value) != ""
    ensures generate(req.text.value).Failure? ==> FromMultimedia(product, req, env, generate) == generate(req.text.value)
    ensures generate(req.text.value).Success? ==>
              FromMultimedia(product, req, env, generate)
              == Success(generate(req.text.value).data, Some(Origin(TextContent, req.text.value)))
  {
  }
}
