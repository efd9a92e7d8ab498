# learnable.ai backend core in Dafny

This project models the input-routing and validation layer of the learnable.ai backend.

- **Media processor:**
  - It validates the format of an uploaded audio, video or document file against the extension allow-lists.
  - It applies the 50 MiB gate to videos.
  - It builds the MIME type handed to the transcriber and picks the document reader by extension.
  - It returns either the content or an error message, or lets an exception escape, exactly where the service does.
- **Learning service:**
  - It picks the content source of a multimedia request by priority: audio, video, document, YouTube URL, then non-blank text.
  - It cleans the LLM's reply of Markdown code fences before JSON parsing.
  - It converts structured quiz questions to four-option questions and counts flashcards.
- **YouTube helpers:** the start-anchored URL pattern, video-ID extraction and the error messages of the transcript fetch.
- **Request schemas:** the mind-map tree, the record types and the field constraints of the input models.
- **Upload middleware:**
  - It refuses a media upload that holds a file above the configured limit with status 413.
  - It wraps a downstream exception into a status 500 reply.
  - The timeout middleware passes every request through.

The LLM, file input and output, base64 encoding, the PDF and Word readers, `json.loads`, building a `MindmapNode` from parsed JSON, the transcript API and the clock are all parameters. They are datatypes of outcomes or function-typed fields, so every property below holds whatever they return.

- A Python exception is an `Outcome`: `Returns(value)` or `Raises(message)`.
- A `(value, None)` / `(None, message)` pair is a `Result`: `Ok(value)` or `Err(message)`.

Modules, one per source file:

- `Wrappers` holds `Option`, `Result` and `Outcome`.
- `Text` holds the Python string built-ins the code relies on: `strip`, `lower`, `join`, `[:n]` and `str(int)`.
- `Paths` holds `os.path.splitext`.
- The rest are `Constants`, `Schema`, `MediaProcessor`, `YouTube`, `LearningService` and `Middleware`.

## Model

| member | source | states |
|---|---|---|
| Text.StripFacts | backend/learning/learning_service.py:69 | `strip` leaves one contiguous block of its input: only whitespace before and after it, no whitespace at either end, and empty exactly when the input is all whitespace |
| Text.StripUnpadded | backend/learning/learning_service.py:79 | a string with no whitespace at either end is left unchanged by `strip` |
| Text.StripIdempotent | backend/learning/learning_service.py:79 | stripping a stripped string changes nothing |
| Text.Strip | backend/learning/learning_service.py:69 | `strip` as left strip then right strip; no contract of its own, its behaviour is stated by `Text.StripFacts`, `Text.StripUnpadded` and `Text.StripIdempotent` |
| Text.Lower | backend/utils/media_processor.py:31 | ASCII `lower` keeps the length and folds each character on its own (only A-Z are folded) |
| Text.Take | backend/learning/learning_service.py:92 | `s[:n]` is the prefix of `s` of length `min(n, len(s))` |
| Text.Join | backend/utils/youtube.py:44 | `sep.join(parts)`; no contract of its own, its layout is stated by `YouTube.JoinSplit`, `YouTube.JoinPlaces` and `YouTube.JoinLength` |
| Text.NatToString | backend/api/middleware.py:29 | `str(n)` is a non-empty run of decimal digits, without a leading zero, whose decimal value is `n` |
| Paths.RFind | backend/utils/media_processor.py:31 | the index found is the last occurrence of the character, or -1 when there is none |
| Paths.Extension | backend/utils/media_processor.py:31 | the `splitext` suffix is empty or a dot followed by no further dot or slash, and it ends the path |
| Paths.NoDotNoExtension | backend/utils/media_processor.py:31 | a name without a dot has the empty extension |
| Paths.ExtensionOfStem | backend/utils/media_processor.py:31 | the extension of `stem + "." + e` is `"." + e` when `stem` names a file and `e` holds no dot or slash |
| Paths.RFindLower | backend/utils/media_processor.py:31 | lower-casing does not move the last dot |
| Paths.ExtensionOfLower | backend/utils/media_processor.py:31 | the extension of the lower-cased name is the lower-cased extension |
| Constants.AllowListsWellFormed | backend/constants.py:7-9 | every allowed extension is a dot followed by at least one character, with no upper-case letter and no further dot or slash |
| Constants.WellFormedIsLower | backend/constants.py:7-9 | an allowed extension is already lower-case, so a lower-cased suffix can match it |
| Constants.AllowListsDisjoint | backend/constants.py:7-9 | the three allow-lists are pairwise disjoint |
| Schema.Children | backend/schema.py:26-28 | every child of a mind-map node is smaller than the node, so the structure is finite; an absent list reads as no children |
| Schema.MindmapIsTree | backend/schema.py:26-28 | a mind map is a tree: it has one more node than it has parent-child links |
| Schema.ForestLinks | backend/schema.py:26-28 | a list of sub-trees under one parent has as many nodes as links |
| Schema.ValidateTextInput | backend/schema.py:7-8 | a required text field (`min_length=1`) is accepted exactly when it is present and non-empty; otherwise it is rejected with the one violation that applies |
| Schema.ValidateMCQQuizInput | backend/schema.py:75-77 | accepted exactly when content is present and non-empty and `num_questions` is absent or in [1, 50]; an absent count becomes 10 |
| Schema.ValidateMCQQuizMultimediaInput | backend/schema.py:80-82 | content is optional and passed as given; accepted exactly when `num_questions` is absent or in [1, 50]; the count is the given one, or 10 when absent; a rejection lists at least one violation |
| Schema.ValidateMCQQuizQueryParams | backend/schema.py:145-147 | accepted exactly when content is present (it may be empty) and `num_questions` is absent or in [1, 50]; the count is the given one, or 10 when absent; a rejection lists at least one violation |
| MediaProcessor.ValidateFile | backend/utils/media_processor.py:29-48 | accepted exactly when the lower-cased `splitext` suffix is in the kind's allow-list; the accepted value is that listed extension and ends the lower-cased name; a refusal carries "Unsupported <kind> format. Allowed: " and the list joined by ", " |
| MediaProcessor.ValidationIgnoresCase | backend/utils/media_processor.py:31 | two names that lower-case alike validate alike |
| MediaProcessor.ValidationAcceptsAllowedNames | backend/utils/media_processor.py:31-34 | a file name ending in an allowed extension, in any case, is accepted with the lower-cased extension and its dot |
| MediaProcessor.NameWithoutDotRejected | backend/utils/media_processor.py:31-33 | a name without a dot is refused with the unsupported-format message |
| MediaProcessor.AtMostOneKind | backend/utils/media_processor.py:29-48 | no file name passes two different validators |
| MediaProcessor.MimeType | backend/utils/media_processor.py:114 | the MIME type is "audio/" or "video/" followed by the extension without its dot |
| MediaProcessor.MimeTypeOfAllowed | backend/utils/media_processor.py:165 | for an allowed extension the subtype is non-empty and holds no dot or slash |
| MediaProcessor.Caught | backend/utils/media_processor.py:124-125 | a `try`/`except` turns an exception into an error carrying the prefix and its message, and passes a value through |
| MediaProcessor.Transcribe | backend/utils/media_processor.py:105-125 | an encode failure raises "Failed to encode file to base64: " and the cause; otherwise the transcriber is asked with the MIME type and the kind's prompt, and its exception, its transcription (extracting) or the summary of the transcription (processing) is the outcome |
| MediaProcessor.SaveUploaded | backend/utils/media_processor.py:50-61 | the save succeeds exactly when writing the upload succeeds; a failure is re-raised as "Failed to save uploaded file: " and the cause |
| MediaProcessor.EncodeBase64 | backend/utils/media_processor.py:63-70 | the encoding succeeds exactly when reading the file succeeds; a failure is re-raised as "Failed to encode file to base64: " and the cause |
| MediaProcessor.HandleAudio | backend/utils/media_processor.py:93-128 | an unsupported format gives the format message; an allowed one answers as `AcceptedAudio`; it raises only when saving the upload fails, with "Failed to save uploaded file: " and the cause; every error it returns is non-empty |
| MediaProcessor.HandleVideo | backend/utils/media_processor.py:130-189 | an unsupported format gives the format message, a supported video above the limit the size message, any other answers as `AcceptedVideo`; it never raises and every error it returns is non-empty |
| MediaProcessor.HandleDocument | backend/utils/media_processor.py:191-211 | an unsupported format gives the format message; an allowed one answers as `AcceptedDocument`; it raises only on a save failure; every error it returns is non-empty |
| MediaProcessor.Handle | backend/utils/media_processor.py:244-256 | the handler of each kind; no contract of its own, the handler rows and the lemmas about it state its behaviour |
| MediaProcessor.AcceptedAudio | backend/utils/media_processor.py:105-125 | a save failure raises; after the save, an encode failure gives the stage prefix and "Failed to encode file to base64: " with the cause, a transcription failure the stage prefix and its message; the transcription is the content when extracting, and its summary (or the caught summary error) when processing |
| MediaProcessor.AcceptedVideo | backend/utils/media_processor.py:152-180 | never raises; a save failure gives the stage prefix and "Failed to save uploaded file: " with the cause, an encode failure the stage prefix and "Failed to encode file to base64: " with the cause, a transcription failure the stage prefix and its message; the transcription is the content when extracting, and its summary (or the caught summary error) when processing |
| MediaProcessor.AcceptedDocument | backend/utils/media_processor.py:199-208 | a save failure raises; after the save, a reader exception gives the stage prefix and its message, empty text gives "Failed to extract text from document.", and non-empty text is the content when extracting and is summarized (or its summary error caught) when processing |
| MediaProcessor.FormatCheckedFirst | backend/utils/media_processor.py:142-145 | an unsupported format is refused before any size check, save or LLM call, whatever those would do |
| MediaProcessor.VideoSizeGate | backend/utils/media_processor.py:147-150 | a supported video above 52428800 bytes is refused with "Video file size exceeds 50MB limit" |
| MediaProcessor.SizeOnlyGatesVideo | backend/utils/media_processor.py:258-266 | the size of audio and documents, and of a video at or below the limit, does not change the outcome |
| MediaProcessor.SaveFailure | backend/utils/media_processor.py:305 | a failed save escapes as an exception for audio and documents, but becomes the video's "Error ... video file: " error |
| MediaProcessor.TranscriptionUsesMimeType | backend/utils/media_processor.py:273-276 | the transcriber receives the kind's prompt and the MIME type built from the validated extension; when extracting its result is caught with the prefix, and when processing a transcription is summarized and the summary is the result |
| MediaProcessor.PageTexts | backend/utils/media_processor.py:218 | one text per page, in page order, "" for a page whose `extract_text()` gives nothing |
| MediaProcessor.DocumentText | backend/utils/media_processor.py:213-224 | only the reader the extension chooses can raise, and its exception passes through unchanged |
| MediaProcessor.DocumentReaderChoice | backend/utils/media_processor.py:213-224 | ".pdf" gives the page texts (a page without text as "") joined by newlines, ".docx" and ".doc" the paragraphs joined by newlines, each reader's exception passing through; any other extension gives "" |
| MediaProcessor.JoinOfSeveral | backend/utils/media_processor.py:218 | joining two or more pieces keeps at least one separator |
| MediaProcessor.EmptyDocumentText | backend/utils/media_processor.py:201-203 | empty text is refused with "Failed to extract text from document."; a document of two or more pages or paragraphs never is |
| MediaProcessor.NonEmptyTextNotRefused | backend/utils/media_processor.py:343-346 | non-empty extracted text is never refused as empty |
| MediaProcessor.DocumentExtracted | backend/utils/media_processor.py:191-211 | a saved document with non-empty text gives that text when extracting and its summary when processing; a reader exception is caught with the stage's prefix |
| MediaProcessor.ExtractContentFromMedia | backend/utils/media_processor.py:244-256 | every returned error is non-empty, and an exception escapes only from a given audio or document file whose save failed |
| MediaProcessor.ExtractionPriority | backend/utils/media_processor.py:244-256 | audio is preferred to video and video to document; with none given the answer is "No audio, video, or document file provided" |
| MediaProcessor.SummarizeText | backend/utils/media_processor.py:226-242 | the summary when the LLM answers, otherwise "Error summarizing text: " and the cause |
| YouTube.TailMatchesExtends | backend/utils/youtube.py:17 | once the part after the host matches, appending text keeps it matching |
| YouTube.TailMatches | backend/utils/youtube.py:17 | the optional path prefix and the eleven ID characters; no contract of its own, stated by `TailMatchesExtends` and `TrailingTextAllowed` |
| YouTube.TrailingTextAllowed | backend/utils/youtube.py:18 | the pattern is anchored at the start only: any text may follow an accepted URL |
| YouTube.AcceptedUrlShape | backend/utils/youtube.py:14-18 | an accepted URL has at least 20 characters and starts with "h", "w" or "y" |
| YouTube.NonStringRejected | backend/utils/youtube.py:11-12 | a value that is not a string is rejected |
| YouTube.IsYouTubeUrl | backend/utils/youtube.py:7-18 | the pattern as a predicate: a string that starts with one of the scheme, subdomain, host and domain alternatives and a "/" followed by a matching tail; no contract of its own, its behaviour is stated by the lemmas around it |
| YouTube.WatchUrlAccepted | backend/utils/youtube.py:14-18 | a standard watch URL is accepted |
| YouTube.FirstRunStart | backend/utils/youtube.py:32 | finds the leftmost position right after the marker where a non-empty run without "&" or "#" begins |
| YouTube.RunEnd | backend/utils/youtube.py:32 | the run from a position is maximal: it stops at "&", "#" or the end of the URL |
| YouTube.Search | backend/utils/youtube.py:32 | a look-behind search succeeds exactly when some marker occurrence is followed by an allowed character; the match is the leftmost maximal run, non-empty, free of "&" and "#" |
| YouTube.ExtractVideoId | backend/utils/youtube.py:32-39 | no ID exactly when none of "v=", "be/", "embed/" is followed by an allowed character; an ID is a non-empty substring of the URL without "&" or "#" |
| YouTube.MarkerPriority | backend/utils/youtube.py:32-34 | "v=" is tried first, "be/" only when it fails, "embed/" last |
| YouTube.GetYouTubeTranscript | backend/utils/youtube.py:20-51 | without an ID the answer is the invalid-URL error; the transcript is returned exactly when an ID is found and the fetch succeeds, and it is the segment texts joined by single spaces; otherwise the error is the fetch error for that ID, which contains the ID |
| YouTube.FetchErrorNamesId | backend/utils/youtube.py:46-51 | each of the three fetch errors contains the video ID at a known position |
| YouTube.FetchError | backend/utils/youtube.py:46-51 | the three fetch-error messages; no contract of its own, stated by `FetchErrorNamesId` and the transcript contract |
| YouTube.InvalidUrlNeverFetches | backend/utils/youtube.py:36-37 | with no ID the transcript API is not consulted |
| YouTube.JoinLength | backend/utils/youtube.py:44 | joining n pieces adds n - 1 separators to their total length |
| YouTube.JoinSplit | backend/utils/youtube.py:44 | a join splits at any inner index into the join before it, one separator and the join from it on |
| YouTube.JoinPlaces | backend/utils/youtube.py:44 | each part of a join stands between the join of the earlier parts plus a separator and a separator plus the join of the later parts |
| YouTube.SegmentAt | backend/utils/youtube.py:44 | segment i of the transcript starts after the earlier segments and i spaces, and a space follows it unless it is the last |
| YouTube.SegmentsInPlace | backend/utils/youtube.py:44 | in a space-joined transcript every segment text appears in order, segment i at the total length of the earlier ones plus i, each followed by a space except the last |
| YouTube.TranscriptText | backend/utils/youtube.py:44-45 | a successful transcript is exactly the segment texts joined by single spaces, so its length is their total length plus one per gap |
| LearningService.CleanReply | backend/learning/learning_service.py:69-79 | the step-by-step cleaning of a reply computes `CleanFences` |
| LearningService.CleanFences | backend/learning/learning_service.py:69-79 | strip, drop the fences, strip again; no contract of its own, its behaviour is stated by the fence lemmas below |
| LearningService.Unfence | backend/learning/learning_service.py:72-77 | the three fence drops of a stripped reply; no contract of its own, its behaviour is stated by `UnfenceOccurs`, `UnfenceFenced` and `UnfencePlain` |
| LearningService.CleanedIsStripped | backend/learning/learning_service.py:69-79 | a cleaned reply has no whitespace at either end |
| LearningService.CleanedOccursInRaw | backend/learning/learning_service.py:230-240 | a cleaned reply is a contiguous block of the raw reply |
| LearningService.UnfenceOccurs | backend/learning/learning_service.py:72-77 | dropping fences keeps a contiguous block of the reply |
| LearningService.UnfenceFenced | backend/learning/learning_service.py:72-77 | "```json" + inner + "```" loses exactly its fences when inner does not start with a backquote |
| LearningService.FencedReply | backend/learning/learning_service.py:273-283 | a reply made of whitespace, "```json", whitespace, body, whitespace, "```" and whitespace cleans to the stripped body, provided the opening fence is followed by whitespace or the body does not start with a backquote |
| LearningService.UnfencePlain | backend/learning/learning_service.py:72-77 | a reply that neither starts nor ends with "```" is not cut |
| LearningService.UnfencedReply | backend/learning/learning_service.py:359-369 | when the stripped reply neither starts nor ends with "```", cleaning is a plain strip |
| LearningService.PyLen | backend/learning/learning_service.py:247 | `len` is defined on strings, arrays and objects and counts an array's items; on other JSON values it raises |
| LearningService.JsonErrorMessage | backend/learning/learning_service.py:89-93 | a parse error gives the decoder message and quotes the start of the cleaned reply: all of it when shorter than 200 characters, otherwise exactly the first 200 |
| LearningService.GenerateMindmap | backend/learning/learning_service.py:262-300 | success exactly when the LLM answers, the cleaned reply parses and the parsed data builds a node; the mind map is the node built from the parsed cleaned reply; an LLM or build exception gives "Error generating mindmap: " and its message |
| LearningService.MindmapParseFailure | backend/learning/learning_service.py:291-295 | a reply that does not parse gives the "Failed to parse mindmap JSON" error |
| LearningService.FlashcardsParseFailure | backend/learning/learning_service.py:378-382 | a reply that does not parse gives the "Failed to parse flashcards JSON" error quoting the cleaned reply |
| LearningService.Converted | backend/learning/learning_service.py:163-170 | the conversion keeps count and order; each question's options are exactly option A to D, and the question, answer and explanation are copied |
| LearningService.ConvertQuestions | backend/learning/learning_service.py:329-336 | the append loop builds exactly `Converted` of the structured questions |
| LearningService.GenerateMCQQuiz | backend/learning/learning_service.py:302-346 | success exactly when structured output returns; the quiz is exactly `Converted` of the returned questions, whatever `num_questions` asked for; otherwise "Error generating MCQ quiz: " and the cause |
| LearningService.GenerateFlashcards | backend/learning/learning_service.py:348-387 | success exactly when the LLM answers, the cleaned reply parses and `len` applies; the cards are the parsed cleaned reply and `total_cards` is its `len`; an LLM or `len` exception gives "Error generating flashcards: " and its message |
| LearningService.SelectSource | backend/learning/learning_service.py:39-63 | no source exactly when nothing usable is offered; otherwise the chosen one is offered and ranks first in audio, video, document, YouTube, text |
| LearningService.Acquire | backend/learning/learning_service.py:39-61 | an upload source is that file's extraction handler (only that file is passed), the YouTube source the YouTube call on the URL, and the text source the text itself |
| LearningService.FromMultimedia | backend/learning/learning_service.py:22-98 | with no source the fixed "Either ... must be provided" message; otherwise an acquisition exception gets the product's generic prefix, an acquisition error is returned as it is, a generation failure is returned as it is, and a generation success on the acquired content succeeds with that data tagged with the source and the content; every success arises this way |
| LearningService.MindmapFromMultimedia | backend/learning/learning_service.py:22-98 | no source gives the topic message; a source that is acquired gives the answer of `generate_mindmap` on its content, tagged with the source on success; acquisition exceptions and errors as in `FromMultimedia` |
| LearningService.MCQQuizFromMultimedia | backend/learning/learning_service.py:100-182 | no source gives the content message; a source that is acquired gives the answer of `generate_mcq_quiz` on its content, tagged with the source on success, so the quiz is `Converted` of the structured questions for it |
| LearningService.FlashcardsFromMultimedia | backend/learning/learning_service.py:184-260 | no source gives the content message; a source that is acquired gives the answer of `generate_flashcards` on its content, tagged with the source on success; `total_cards` is the length of a parsed array |
| LearningService.BlankTextIsNoSource | backend/learning/learning_service.py:59-63 | with no upload and no URL, a whitespace-only text is no source |
| LearningService.ExtractionErrorPassedThrough | backend/learning/learning_service.py:40-42 | an extraction error is returned verbatim as the failure |
| LearningService.MediaFailureNeverSilent | backend/learning/learning_service.py:39-53 | an error from media extraction is never empty, so `if error:` always sees it |
| LearningService.TextOnlyRequest | backend/learning/learning_service.py:221-223 | with only a non-blank text, generation runs on that text and a success is tagged "text" |
| LearningService.TagsDistinct | backend/learning/learning_service.py:43-61 | the five `content_type` strings are distinct, so the source can be read back from a response |
| LearningService.NoSourceNoCall | backend/learning/learning_service.py:62-63 | with no usable source the answer is the fixed message whatever the services and the generator would do |
| Middleware.FirstOversizedFrom | backend/api/middleware.py:23-30 | finds the first file from a position onward whose size is strictly above the limit |
| Middleware.FirstOversized | backend/api/middleware.py:23-30 | finds the first file in any field whose size is strictly above the limit; none exactly when every size is at most the limit, so a file of exactly the limit is admitted |
| Middleware.ScanUploads | backend/api/middleware.py:23-30 | the loop over the uploaded files with its early return finds exactly `FirstOversized` |
| Middleware.SizeMessage | backend/api/middleware.py:29 | the 413 message is "File size ", the size in decimal, " bytes exceeds maximum allowed size of ", the limit in decimal and " bytes", with nothing else: each piece at its offset and the length their sum |
| Middleware.ServerError | backend/api/middleware.py:44-50 | a normal response passes through; an exception becomes status 500 with "Internal server error: " and its message |
| Middleware.LargeFileUploadMiddleware.Call | backend/api/middleware.py:19-50 | a media POST with an oversized file gets 413 with the size message naming the first such file, is not stamped, and never reaches the stack; otherwise the request is stamped with the clock and the downstream response comes back unchanged, or a 500 "Internal server error: " reply if it raised |
| Middleware.GateRefusesExactly | backend/api/middleware.py:21-27 | refused exactly when the request is a POST, it carries "audio_file", "video_file" or "document_file", and some file is above the limit |
| Middleware.TimeoutMiddleware.Call | backend/api/middleware.py:60-66 | the downstream outcome, a response or an exception, comes back unchanged |

## Left out

- The LLM, `run_prompt`, structured output, file saving, base64 encoding, the PDF and Word readers, `json.loads`, `MindmapNode(**data)` and the transcript API are parameters. The model states what is done with their results, not what they compute.
- `_save_uploaded_file` writes the upload in 8 KB chunks. Only the outcome of the save is modelled, not the chunk loop.
- The temporary file is deleted in `finally`. File-system state is not modelled.
- Logging, the slow-request timing in the upload middleware, and the log line in the timeout middleware are not modelled. `time.time()` is a natural-number clock reading passed in.
- Prompt and system-message texts are named but not spelled out, except the two transcription prompts.
- `extract_content_from_youtube` is not part of this model. The YouTube branch of the learning service is a supplied call that may return content, an error or an exception. An empty error string from it is treated as a failure, not as success.
- The `media_processor=None` default of the multimedia methods is not modelled. A processor is always present.
- A transcript segment without a "text" key (a `KeyError`) is not modelled. Segments are their texts.
- `request.FILES` is modelled as its `items()` view. Fields that carry several files are not modelled.
- Text.Lower: only the ASCII letters A-Z are folded, so the length is kept. Python's Unicode `lower`, which can change the length, is not modelled.
- MediaProcessor.ValidateFile: `lower` folds ASCII letters only. Python's Unicode case folding of other letters is not modelled.
- LearningService.GenerateFlashcards: the flashcard payload is left as parsed JSON. Its agreement with the `Flashcard` record is not checked, as the service does not check it either.
- Floating-point JSON numbers are kept as their literal text.
