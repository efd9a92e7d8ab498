/** The extension allow-lists and the transcription prompts the media pipeline uses. */
module Constants {
  import opened Text

  const AllowedAudioExtensions: seq<string> := [".mp3", ".wav", ".m4a", ".flac", ".aac", ".ogg"]
  const AllowedVideoExtensions: seq<string> := [".mp4", ".avi", ".mov", ".mkv", ".wmv", ".flv", ".webm", ".m4v"]
  const AllowedDocumentExtensions: seq<string> := [".pdf", ".docx", ".doc"]

  const AudioTranscriptionPrompt: string := "Please transcribe this audio content accurately."
  const VideoTranscriptionPrompt: string := "Please transcribe this video content accurately."

  /** An extension that a lower-cased `splitext` suffix can equal: a dot, then at least one
      character, none of them an upper-case ASCII letter, a dot or a slash. */
  predicate WellFormedExtension(e: string) {
    && |e| >= 2
    && e[0] == '.'
    && (forall k :: 0 <= k < |e| ==> !('A' <= e[k] <= 'Z'))
    && (forall k :: 1 <= k < |e| ==> e[k] != '.' && e[k] != '/')
  }

  /** Every allowed extension is well formed, hence a fixed point of `Lower`. */
  lemma AllowListsWellFormed()
    ensures forall e :: e in AllowedAudioExtensions ==> WellFormedExtension(e)
    ensures forall e :: e in AllowedVideoExtensions ==> WellFormedExtension(e)
    ensures forall e :: e in AllowedDocumentExtensions ==> WellFormedExtension(e)
  {
  }

  lemma WellFormedIsLower(e: string)
    requires WellFormedExtension(e)
    ensures Lower(e) == e
  {
  }

  /** No extension is allowed for two kinds of media. */
  lemma AllowListsDisjoint()
    ensures forall e :: e in AllowedAudioExtensions ==> e !in AllowedVideoExtensions && e !in AllowedDocumentExtensions
    ensures forall e :: e in AllowedVideoExtensions ==> e !in AllowedDocumentExtensions
  {
  }
}
