/** The media side of the backend: checking an uploaded file's format (and, for video, its size),
    and turning a valid file into text by transcription or text extraction. File I/O and the LLM
    are supplied as outcomes by a `MediaServices` value. */
module MediaProcessor {
  import opened Wrappers
  import opened Text
  import Paths
  import opened Constants

  datatype MediaKind = Audio | Video | Document

  function KindName(kind: MediaKind): string {
    match kind
    case Audio => "audio"
    case Video => "video"
    case Document => "document"
  }

  function AllowList(kind: MediaKind): seq<string> {
    match kind
    case Audio => AllowedAudioExtensions
    case Video => AllowedVideoExtensions
    case Document => AllowedDocumentExtensions
  }

  /** An uploaded file as the pipeline sees it: the client's file name and its size in bytes. */
  datatype Upload = Upload(name: string, size: nat)

  /** `if audio_file:` on an optional upload: an upload object is truthy exactly when its name is
      non-empty. */
  predicate Given(f: Option<Upload>) {
    f.Some? && f.value.name != ""
  }

  function UnsupportedMessage(kind: MediaKind): (m: string)
    ensures m != ""
  {
    "Unsupported " + KindName(kind) + " format. Allowed: " + Join(AllowList(kind), ", ")
  }

  /** `validate_audio_file`, `validate_video_file`, `validate_document_file`: the lower-cased
      `splitext` extension must be on the kind's allow-list; it is returned, dot included. */
  function ValidateFile(kind: MediaKind, name: string): (r: Result<string>)
    ensures r.Ok? <==> Lower(Paths.Extension(name)) in AllowList(kind)
    ensures r.Ok? ==> r.value in AllowList(kind) && EndsWith(Lower(name), r.value)
    ensures r.Err? ==> r.message == UnsupportedMessage(kind)
  {
    var ext := Lower(Paths.Extension(name));
    Paths.ExtensionOfLower(name);
    if ext in AllowList(kind) then Ok(ext) else Err(UnsupportedMessage(kind))
  }

  /** Validation does not depend on letter case. */
  lemma ValidationIgnoresCase(kind: MediaKind, a: string, b: string)
    requires Lower(a) == Lower(b)
    ensures ValidateFile(kind, a) == ValidateFile(kind, b)
  {
    Paths.ExtensionOfLower(a);
    Paths.ExtensionOfLower(b);
  }

  /** A name made of a stem and an allowed extension, in any letter case, passes and yields the
      extension in lower case with its dot. */
  lemma ValidationAcceptsAllowedNames(kind: MediaKind, stem: string, suffix: string)
    requires forall k :: 0 <= k < |stem| ==> stem[k] != '/'
    requires exists k :: 0 <= k < |stem| && stem[k] != '.'
    requires Lower(suffix) in AllowList(kind)
    ensures ValidateFile(kind, stem + suffix) == Ok(Lower(suffix))
  {
    AllowListsWellFormed();
    var e := Lower(suffix);
    assert WellFormedExtension(e);
    assert suffix[0] == '.' by { assert LowerChar(suffix[0]) == '.'; }
    var rest := suffix[1..];
    forall k | 0 <= k < |rest| ensures rest[k] != '.' && rest[k] != '/' {
      assert LowerChar(rest[k]) == e[k + 1];
    }
    assert suffix == "." + rest;
    assert stem + suffix == stem + "." + rest;
    Paths.ExtensionOfStem(stem, rest);
  }

  /** A name without a dot is rejected by every validator. */
  lemma NameWithoutDotRejected(kind: MediaKind, name: string)
    requires forall k :: 0 <= k < |name| ==> name[k] != '.'
    ensures ValidateFile(kind, name) == Err(UnsupportedMessage(kind))
  {
    Paths.NoDotNoExtension(name);
    assert Lower("") == "";
    AllowListsWellFormed();
  }

  /** No file name passes two different validators. */
  lemma AtMostOneKind(name: string, k1: MediaKind, k2: MediaKind)
    requires ValidateFile(k1, name).Ok? && ValidateFile(k2, name).Ok?
    ensures k1 == k2
  {
    AllowListsDisjoint();
  }

  /** `f"audio/{ext[1:]}"` and `f"video/{ext[1:]}"`: the kind, a slash, and the extension without
      its leading dot. */
  function MimeType(kind: MediaKind, ext: string): (mime: string)
    ensures StartsWith(mime, KindName(kind) + "/")
    ensures |ext| >= 1 && ext[0] == '.' ==> "." + mime[|KindName(kind)| + 1..] == ext
  {
    KindName(kind) + "/" + (if |ext| == 0 then "" else ext[1..])
  }

  /** The MIME type of every allowed audio or video extension is the kind, a slash, and a subtype
      with no dot or slash in it. */
  lemma MimeTypeOfAllowed(kind: MediaKind, ext: string)
    requires ext in AllowList(kind)
    ensures MimeType(kind, ext) == KindName(kind) + "/" + ext[1..]
    ensures |ext[1..]| >= 1 && forall k :: 0 <= k < |ext[1..]| ==> ext[1..][k] != '.' && ext[1..][k] != '/'
  {
    AllowListsWellFormed();
    assert WellFormedExtension(ext);
  }

  /** The environment of one media call: what saving the temporary copy, reading it back as base64,
      the LLM's transcription and summary, and the PDF and Word readers do. */
  datatype MediaServices = MediaServices(
    save: Outcome<()>,
    encode: Outcome<()>,
    transcribe: (string, string) -> Outcome<string>,  // (MIME type, prompt) to transcription
    summarize: string -> Outcome<string>,              // transcription or text to structured summary
    pdfPages: Outcome<seq<Option<string>>>,            // text of each page; None when a page has none
    wordParagraphs: Outcome<seq<string>>)

  /** `_save_uploaded_file`: a failure is re-raised with a fixed prefix. */
  function SaveUploaded(io: MediaServices): (r: Outcome<()>)
    ensures r.Returns? <==> io.save.Returns?
    ensures r.Raises? ==> r.message == "Failed to save uploaded file: " + io.save.message
  {
    match io.save
    case Returns(_) => Returns(())
    case Raises(e) => Raises("Failed to save uploaded file: " + e)
  }

  /** `_encode_file_to_base64`: a failure is re-raised with a fixed prefix. */
  function EncodeBase64(io: MediaServices): (r: Outcome<()>)
    ensures r.Returns? <==> io.encode.Returns?
    ensures r.Raises? ==> r.message == "Failed to encode file to base64: " + io.encode.message
  {
    match io.encode
    case Returns(_) => Returns(())
    case Raises(e) => Raises("Failed to encode file to base64: " + e)
  }

  function TranscriptionPrompt(kind: MediaKind): string
    requires kind != Document
  {
    if kind == Audio then AudioTranscriptionPrompt else VideoTranscriptionPrompt
  }

  /** Which public path runs: `_extract_content_from_*` (text for the learning services) or
      `process_*` (the same, then summarized). */
  datatype Stage = Extracting | Processing

  function ErrorPrefix(stage: Stage, kind: MediaKind): (p: string)
    ensures p != ""
  {
    match stage
    case Extracting => "Error extracting content from " + KindName(kind) + " file: "
    case Processing => "Error processing " + KindName(kind) + " file: "
  }

  /** An exception caught by a `try` and reported as an error message with a prefix. */
  function Caught(o: Outcome<string>, prefix: string): (r: Result<string>)
    ensures r.Err? ==> o.Raises? && r.message == prefix + o.message
    ensures r.Ok? ==> o == Returns(r.value)
  {
    match o
    case Returns(v) => Ok(v)
    case Raises(e) => Err(prefix + e)
  }

  /** The steps after saving an audio or video file: encode it, have the LLM transcribe it with
      the kind's MIME type and prompt, and on the processing path summarize the transcription. */
  function Transcribe(stage: Stage, kind: MediaKind, ext: string, io: MediaServices): (r: Outcome<string>)
    requires kind != Document
    ensures io.encode.Raises? ==> r == Raises("Failed to encode file to base64: " + io.encode.message)
    ensures io.encode.Returns? ==>
      var heard := io.transcribe(MimeType(kind, ext), TranscriptionPrompt(kind));
      && (heard.Raises? ==> r == heard)
      && (heard.Returns? && stage == Extracting ==> r == heard)
      && (heard.Returns? && stage == Processing ==> r == io.summarize(heard.value))
  {
    match EncodeBase64(io)
    case Raises(e) => Raises(e)
    case Returns(_) =>
      match io.transcribe(MimeType(kind, ext), TranscriptionPrompt(kind))
      case Raises(e) => Raises(e)
      case Returns(t) => if stage == Processing then io.summarize(t) else Returns(t)
  }

  /** `_extract_content_from_audio` and `process_audio_file`. The save runs outside the `try`, so
      its failure escapes as an exception; every other failure becomes an error message. */
  function HandleAudio(stage: Stage, f: Upload, io: MediaServices): (r: Outcome<Result<string>>)
    ensures r.Raises? ==> io.save.Raises? && r.message == "Failed to save uploaded file: " + io.save.message
    ensures r.Returns? && r.value.Err? ==> r.value.message != ""
    ensures ValidateFile(Audio, f.name).Err? ==> r == Returns(Err(ValidateFile(Audio, f.name).message))
    ensures ValidateFile(Audio, f.name).Ok? ==> r == AcceptedAudio(stage, ValidateFile(Audio, f.name).value, io)
  {
    match ValidateFile(Audio, f.name)
    case Err(m) => Returns(Err(m))
    case Ok(ext) => AcceptedAudio(stage, ext, io)
  }

  /** An audio file in an allowed format: the save, outside the `try`, then the caught steps. */
  function AcceptedAudio(stage: Stage, ext: string, io: MediaServices): (r: Outcome<Result<string>>)
    ensures r.Raises? ==> io.save.Raises? && r.message == "Failed to save uploaded file: " + io.save.message
    ensures r.Returns? && r.value.Err? ==> r.value.message != ""
    ensures io.save.Raises? ==> r.Raises?
    ensures io.save.Returns? && io.encode.Raises? ==>
      r == Returns(Err(ErrorPrefix(stage, Audio) + ("Failed to encode file to base64: " + io.encode.message)))
    ensures io.save.Returns? && io.encode.Returns? ==>
      var heard := io.transcribe(MimeType(Audio, ext), AudioTranscriptionPrompt);
      && (heard.Raises? ==> r == Returns(Err(ErrorPrefix(stage, Audio) + heard.message)))
      && (heard.Returns? && stage == Extracting ==> r == Returns(Ok(heard.value)))
      && (heard.Returns? && stage == Processing ==>
            r == Returns(Caught(io.summarize(heard.value), ErrorPrefix(stage, Audio))))
  {
    match SaveUploaded(io)
    case Raises(e) => Raises(e)
    case Returns(_) => Returns(Caught(Transcribe(stage, Audio, ext, io), ErrorPrefix(stage, Audio)))
  }

  const VideoSizeLimit: nat := 50 * 1024 * 1024
  const VideoTooLargeMessage: string := "Video file size exceeds 50MB limit"

  /** `_extract_content_from_video` and `process_video_file`. The format is checked, then the
      size; the save runs inside the `try`, so this path never raises. */
  function HandleVideo(stage: Stage, f: Upload, io: MediaServices): (r: Outcome<Result<string>>)
    ensures r.Returns?
    ensures r.value.Err? ==> r.value.message != ""
    ensures ValidateFile(Video, f.name).Err? ==> r == Returns(Err(ValidateFile(Video, f.name).message))
    ensures ValidateFile(Video, f.name).Ok? && f.size > VideoSizeLimit ==> r == Returns(Err(VideoTooLargeMessage))
    ensures ValidateFile(Video, f.name).Ok? && f.size <= VideoSizeLimit ==>
      r == AcceptedVideo(stage, ValidateFile(Video, f.name).value, io)
  {
    match ValidateFile(Video, f.name)
    case Err(m) => Returns(Err(m))
    case Ok(ext) =>
      if f.size > VideoSizeLimit then Returns(Err(VideoTooLargeMessage))
      else AcceptedVideo(stage, ext, io)
  }

  /** A video file in an allowed format and within the size limit: the save and the steps after
      it, all inside the `try`. */
  function AcceptedVideo(stage: Stage, ext: string, io: MediaServices): (r: Outcome<Result<string>>)
    ensures r.Returns? && (r.value.Err? ==> r.value.message != "")
    ensures io.save.Raises? ==>
      r == Returns(Err(ErrorPrefix(stage, Video) + ("Failed to save uploaded file: " + io.save.message)))
    ensures io.save.Returns? && io.encode.Raises? ==>
      r == Returns(Err(ErrorPrefix(stage, Video) + ("Failed to encode file to base64: " + io.encode.message)))
    ensures io.save.Returns? && io.encode.Returns? ==>
      var heard := io.transcribe(MimeType(Video, ext), VideoTranscriptionPrompt);
      && (heard.Raises? ==> r == Returns(Err(ErrorPrefix(stage, Video) + heard.message)))
      && (heard.Returns? && stage == Extracting ==> r == Returns(Ok(heard.value)))
      && (heard.Returns? && stage == Processing ==>
            r == Returns(Caught(io.summarize(heard.value), ErrorPrefix(stage, Video))))
  {
    var attempt := match SaveUploaded(io)
      case Raises(e) => Raises(e)
      case Returns(_) => Transcribe(stage, Video, ext, io);
    Returns(Caught(attempt, ErrorPrefix(stage, Video)))
  }

  const NoTextMessage: string := "Failed to extract text from document."

  /** `page.extract_text() or ''`. */
  function PageText(page: Option<string>): string {
    match page
    case None => ""
    case Some(t) => t
  }

  /** The text of every page, in order, with "" for a page that has none. */
  function PageTexts(pages: seq<Option<string>>): (r: seq<string>)
    ensures |r| == |pages|
    ensures forall i :: 0 <= i < |pages| ==> r[i] == if pages[i].Some? then pages[i].value else ""
  {
    seq(|pages|, i requires 0 <= i < |pages| => PageText(pages[i]))
  }

  /** `_extract_text_from_document`: the PDF reader for ".pdf", the Word reader for ".docx" and
      ".doc" (pages or paragraphs joined by newlines), and "" for anything else. Only the chosen
      reader can raise. */
  function DocumentText(ext: string, io: MediaServices): (r: Outcome<string>)
    ensures r.Raises? ==>
      || (ext == ".pdf" && io.pdfPages == Raises(r.message))
      || ((ext == ".docx" || ext == ".doc") && io.wordParagraphs == Raises(r.message))
  {
    if ext == ".pdf" then
      match io.pdfPages
      case Raises(e) => Raises(e)
      case Returns(pages) => Returns(Join(PageTexts(pages), "\n"))
    else if ext == ".docx" || ext == ".doc" then
      match io.wordParagraphs
      case Raises(e) => Raises(e)
      case Returns(paragraphs) => Returns(Join(paragraphs, "\n"))
    else Returns("")
  }

  /** `_extract_content_from_document` and `process_document_file`. The save runs outside the
      `try`; an empty extracted text is reported as such. */
  function HandleDocument(stage: Stage, f: Upload, io: MediaServices): (r: Outcome<Result<string>>)
    ensures r.Raises? ==> io.save.Raises? && r.message == "Failed to save uploaded file: " + io.save.message
    ensures r.Returns? && r.value.Err? ==> r.value.message != ""
    ensures ValidateFile(Document, f.name).Err? ==> r == Returns(Err(ValidateFile(Document, f.name).message))
    ensures ValidateFile(Document, f.name).Ok? ==> r == AcceptedDocument(stage, ValidateFile(Document, f.name).value, io)
  {
    match ValidateFile(Document, f.name)
    case Err(m) => Returns(Err(m))
    case Ok(ext) => AcceptedDocument(stage, ext, io)
  }

  /** A document in an allowed format: the save, outside the `try`, then the text extraction,
      the empty-text check and, on the processing path, the summary. */
  function AcceptedDocument(stage: Stage, ext: string, io: MediaServices): (r: Outcome<Result<string>>)
    ensures r.Raises? ==> io.save.Raises? && r.message == "Failed to save uploaded file: " + io.save.message
    ensures r.Returns? && r.value.Err? ==> r.value.message != ""
    ensures io.save.Raises? ==> r.Raises?
    ensures io.save.Returns? ==>
      var text := DocumentText(ext, io);
      && (text.Raises? ==> r == Returns(Err(ErrorPrefix(stage, Document) + text.message)))
      && (text == Returns("") ==> r == Returns(Err(NoTextMessage)))
      && (text.Returns? && text.value != "" && stage == Extracting ==> r == Returns(Ok(text.value)))
      && (text.Returns? && text.value != "" && stage == Processing ==>
            r == Returns(Caught(io.summarize(text.value), ErrorPrefix(stage, Document))))
  {
    match SaveUploaded(io)
    case Raises(e) => Raises(e)
    case Returns(_) =>
      Returns(
        match DocumentText(ext, io)
        case Raises(e) => Err(ErrorPrefix(stage, Document) + e)
        case Returns(text) =>
          if text == "" then Err(NoTextMessage)
          else if stage == Extracting then Ok(text)
          else Caught(io.summarize(text), ErrorPrefix(stage, Document)))
  }

  function Handle(stage: Stage, kind: MediaKind, f: Upload, io: MediaServices): Outcome<Result<string>> {
    match kind
    case Audio => HandleAudio(stage, f, io)
    case Video => HandleVideo(stage, f, io)
    case Document => HandleDocument(stage, f, io)
  }

  /** A file in the wrong format is refused with the format message before anything else happens:
      before the size check, the save, or any LLM call. */
  lemma FormatCheckedFirst(stage: Stage, kind: MediaKind, f: Upload, io: MediaServices)
    requires ValidateFile(kind, f.name).Err?
    ensures Handle(stage, kind, f, io) == Returns(Err(UnsupportedMessage(kind)))
  {
  }

  /** A valid video above 50 MiB is refused with the size message. */
  lemma VideoSizeGate(stage: Stage, f: Upload, io: MediaServices)
    requires ValidateFile(Video, f.name).Ok? && f.size > 52428800
    ensures HandleVideo(stage, f, io) == Returns(Err(VideoTooLargeMessage))
  {
  }

  /** A video of at most 50 MiB (the limit itself included) is treated as if it were empty: the
      size plays no further part. Audio and document sizes play no part at all. */
  lemma SizeOnlyGatesVideo(stage: Stage, kind: MediaKind, name: string, size: nat, io: MediaServices)
    requires kind == Video ==> size <= 52428800
    ensures Handle(stage, kind, Upload(name, size), io) == Handle(stage, kind, Upload(name, 0), io)
  {
    match kind
    case Audio => SizeIgnoredAudio(stage, name, size, io);
    case Video => SizeIgnoredVideo(stage, name, size, io);
    case Document => SizeIgnoredDocument(stage, name, size, io);
  }

  lemma SizeIgnoredAudio(stage: Stage, name: string, size: nat, io: MediaServices)
    ensures HandleAudio(stage, Upload(name, size), io) == HandleAudio(stage, Upload(name, 0), io)
  {
  }

  lemma SizeIgnoredVideo(stage: Stage, name: string, size: nat, io: MediaServices)
    requires size <= 52428800
    ensures HandleVideo(stage, Upload(name, size), io) == HandleVideo(stage, Upload(name, 0), io)
  {
  }

  lemma SizeIgnoredDocument(stage: Stage, name: string, size: nat, io: MediaServices)
    ensures HandleDocument(stage, Upload(name, size), io) == HandleDocument(stage, Upload(name, 0), io)
  {
  }

  /** For audio and documents a failed save escapes as an exception; for video it is reported. */
  lemma SaveFailure(stage: Stage, kind: MediaKind, f: Upload, io: MediaServices)
    requires ValidateFile(kind, f.name).Ok? && io.save.Raises?
    requires kind == Video ==> f.size <= VideoSizeLimit
    ensures kind != Video ==> Handle(stage, kind, f, io) == Raises("Failed to save uploaded file: " + io.save.message)
    ensures kind == Video ==> Handle(stage, kind, f, io) == Returns(Err(ErrorPrefix(stage, Video) + ("Failed to save uploaded file: " + io.save.message)))
  {
    var ext := ValidateFile(kind, f.name).value;
    match kind
    case Audio => assert Handle(stage, kind, f, io) == AcceptedAudio(stage, ext, io);
    case Video => assert Handle(stage, kind, f, io) == AcceptedVideo(stage, ext, io);
    case Document => assert Handle(stage, kind, f, io) == AcceptedDocument(stage, ext, io);
  }

  /** A valid audio or video file that is saved and encoded is transcribed by the LLM with the
      MIME type "<kind>/" + the extension without its dot. On the extraction path the transcription
      is the content; on the processing path it is summarized, and the summary is the result. */
  lemma TranscriptionUsesMimeType(kind: MediaKind, f: Upload, io: MediaServices, ext: string)
    requires kind != Document
    requires ValidateFile(kind, f.name) == Ok(ext)
    requires kind == Video ==> f.size <= VideoSizeLimit
    requires io.save.Returns? && io.encode.Returns?
    ensures Handle(Extracting, kind, f, io)
         == Returns(Caught(io.transcribe(KindName(kind) + "/" + ext[1..], TranscriptionPrompt(kind)), ErrorPrefix(Extracting, kind)))
    ensures var heard := io.transcribe(KindName(kind) + "/" + ext[1..], TranscriptionPrompt(kind));
      heard.Returns? ==>
        Handle(Processing, kind, f, io) == Returns(Caught(io.summarize(heard.value), ErrorPrefix(Processing, kind)))
  {
    MimeTypeOfAllowed(kind, ext);
    if kind == Audio {
      assert Handle(Extracting, kind, f, io) == AcceptedAudio(Extracting, ext, io);
      assert Handle(Processing, kind, f, io) == AcceptedAudio(Processing, ext, io);
    } else {
      assert Handle(Extracting, kind, f, io) == AcceptedVideo(Extracting, ext, io);
      assert Handle(Processing, kind, f, io) == AcceptedVideo(Processing, ext, io);
    }
  }

  /** A saved document whose reader gives non-empty text: the text is the content on the
      extraction path and is summarized on the processing path; a reader exception is caught
      with the stage's prefix. */
  lemma DocumentExtracted(f: Upload, io: MediaServices, ext: string)
    requires ValidateFile(Document, f.name) == Ok(ext) && io.save.Returns?
    ensures DocumentText(ext, io).Returns? && DocumentText(ext, io).value != "" ==>
      && Handle(Extracting, Document, f, io) == Returns(Ok(DocumentText(ext, io).value))
      && Handle(Processing, Document, f, io)
         == Returns(Caught(io.summarize(DocumentText(ext, io).value), ErrorPrefix(Processing, Document)))
    ensures DocumentText(ext, io).Raises? ==>
      && Handle(Extracting, Document, f, io) == Returns(Err(ErrorPrefix(Extracting, Document) + DocumentText(ext, io).message))
      && Handle(Processing, Document, f, io) == Returns(Err(ErrorPrefix(Processing, Document) + DocumentText(ext, io).message))
  {
    DocumentAccepted(Extracting, f, io, ext);
    DocumentAccepted(Processing, f, io, ext);
    assert Handle(Extracting, Document, f, io) == HandleDocument(Extracting, f, io);
    assert Handle(Processing, Document, f, io) == HandleDocument(Processing, f, io);
  }

  /** The reader is chosen by the extension alone; an extension with no reader gives "". */
  lemma DocumentReaderChoice(ext: string, io: MediaServices)
    ensures ext == ".pdf" ==>
      DocumentText(ext, io) == (match io.pdfPages
                                case Raises(e) => Raises(e)
                                case Returns(pages) => Returns(Join(PageTexts(pages), "\n")))
    ensures ext == ".docx" || ext == ".doc" ==>
      DocumentText(ext, io) == (match io.wordParagraphs
                                case Raises(e) => Raises(e)
                                case Returns(ps) => Returns(Join(ps, "\n")))
    ensures ext != ".pdf" && ext != ".docx" && ext != ".doc" ==> DocumentText(ext, io) == Returns("")
  {
  }

  lemma JoinOfSeveral(parts: seq<string>, sep: string)
    requires sep != "" && |parts| >= 2
    ensures |Join(parts, sep)| >= |sep|
  {
  }

  /** A document whose extracted text is empty is refused with the fixed message; a PDF with two
      or more pages, or a Word file with two or more paragraphs, never is, even when no page or
      paragraph holds any text (the newlines that join them are text). */
  lemma EmptyDocumentText(stage: Stage, f: Upload, io: MediaServices, ext: string)
    requires ValidateFile(Document, f.name) == Ok(ext) && io.save.Returns?
    ensures DocumentText(ext, io) == Returns("") ==> HandleDocument(stage, f, io) == Returns(Err(NoTextMessage))
    ensures ext == ".pdf" && io.pdfPages.Returns? && |io.pdfPages.value| >= 2 ==> HandleDocument(stage, f, io) != Returns(Err(NoTextMessage))
    ensures ext != ".pdf" && io.wordParagraphs.Returns? && |io.wordParagraphs.value| >= 2 ==> HandleDocument(stage, f, io) != Returns(Err(NoTextMessage))
  {
    DocumentAccepted(stage, f, io, ext);
    if DocumentText(ext, io) == Returns("") {
      EmptyTextRefused(stage, ext, io);
    }
    SeveralPartsNotRefused(stage, ext, io);
  }

  /** A document that passes validation goes on to the saving and reading steps. */
  lemma DocumentAccepted(stage: Stage, f: Upload, io: MediaServices, ext: string)
    requires ValidateFile(Document, f.name) == Ok(ext)
    ensures HandleDocument(stage, f, io) == AcceptedDocument(stage, ext, io)
    ensures ext == ".pdf" || ext == ".docx" || ext == ".doc"
  {
    DocumentExtensions(ext);
  }

  lemma DocumentExtensions(ext: string)
    requires ext in AllowList(Document)
    ensures ext == ".pdf" || ext == ".docx" || ext == ".doc"
  {
    var list := AllowList(Document);
    assert list == [".pdf", ".docx", ".doc"];
    assert ext == list[0] || ext == list[1] || ext == list[2];
  }

  /** Two or more pages or paragraphs always give some text. */
  lemma SeveralPartsNotRefused(stage: Stage, ext: string, io: MediaServices)
    requires io.save.Returns? && (ext == ".pdf" || ext == ".docx" || ext == ".doc")
    ensures ext == ".pdf" && io.pdfPages.Returns? && |io.pdfPages.value| >= 2 ==> AcceptedDocument(stage, ext, io) != Returns(Err(NoTextMessage))
    ensures ext != ".pdf" && io.wordParagraphs.Returns? && |io.wordParagraphs.value| >= 2 ==> AcceptedDocument(stage, ext, io) != Returns(Err(NoTextMessage))
  {
    if ext == ".pdf" && io.pdfPages.Returns? && |io.pdfPages.value| >= 2 {
      var pages := io.pdfPages.value;
      JoinOfSeveral(PageTexts(pages), "\n");
      NonEmptyTextNotRefused(stage, ext, io);
    }
    if ext != ".pdf" && io.wordParagraphs.Returns? && |io.wordParagraphs.value| >= 2 {
      JoinOfSeveral(io.wordParagraphs.value, "\n");
      NonEmptyTextNotRefused(stage, ext, io);
    }
  }

  /** Once saved, a document with empty text is refused with the fixed message. */
  lemma EmptyTextRefused(stage: Stage, ext: string, io: MediaServices)
    requires io.save.Returns? && DocumentText(ext, io) == Returns("")
    ensures AcceptedDocument(stage, ext, io) == Returns(Err(NoTextMessage))
  {
  }

  /** Text that is not empty is never refused as empty, whatever the summary step does. */
  lemma NonEmptyTextNotRefused(stage: Stage, ext: string, io: MediaServices)
    requires io.save.Returns?
    requires DocumentText(ext, io).Returns? && DocumentText(ext, io).value != ""
    ensures AcceptedDocument(stage, ext, io) != Returns(Err(NoTextMessage))
  {
    var text := DocumentText(ext, io).value;
    if stage == Processing && io.summarize(text).Raises? {
      var m := ErrorPrefix(stage, Document) + io.summarize(text).message;
      assert m[0] == 'E' && NoTextMessage[0] == 'F';
    }
  }

  const NoMediaMessage: string := "No audio, video, or document file provided"

  /** `extract_content_from_media`: the audio file if given, else the video file, else the
      document; with none of them, a fixed error. */
  function ExtractContentFromMedia(audio: Option<Upload>, video: Option<Upload>, document: Option<Upload>, io: MediaServices): (r: Outcome<Result<string>>)
    ensures r.Returns? && r.value.Err? ==> r.value.message != ""
    ensures r.Raises? ==> (Given(audio) || Given(document)) && io.save.Raises?
  {
    if Given(audio) then HandleAudio(Extracting, audio.value, io)
    else if Given(video) then HandleVideo(Extracting, video.value, io)
    else if Given(document) then HandleDocument(Extracting, document.value, io)
    else Returns(Err(NoMediaMessage))
  }

  /** Priority audio > video > document: the highest-priority given file decides the result, and
      the files below it are never looked at. */
  lemma ExtractionPriority(audio: Option<Upload>, video: Option<Upload>, document: Option<Upload>, io: MediaServices)
    ensures Given(audio) ==> ExtractContentFromMedia(audio, video, document, io) == Handle(Extracting, Audio, audio.value, io)
    ensures !Given(audio) && Given(video) ==> ExtractContentFromMedia(audio, video, document, io) == Handle(Extracting, Video, video.value, io)
    ensures !Given(audio) && !Given(video) && Given(document) ==> ExtractContentFromMedia(audio, video, document, io) == Handle(Extracting, Document, document.value, io)
    ensures !Given(audio) && !Given(video) && !Given(document) ==> ExtractContentFromMedia(audio, video, document, io) == Returns(Err(NoMediaMessage))
  {
  }

  /** `summarize_text`: the LLM's summary, or its exception with a fixed prefix. */
  function SummarizeText(text: string, summarizer: string -> Outcome<string>): (r: Result<string>)
    ensures r.Ok? <==> summarizer(text).Returns?
    ensures r.Ok? ==> r.value == summarizer(text).value
    ensures r.Err? ==> r.message == "Error summarizing text: " + summarizer(text).message
  {
    Caught(summarizer(text), "Error summarizing text: ")
  }
}
