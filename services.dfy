/**
 * The external calls the translator makes, reduced to what they do to its state:
 * each either produces its result or raises.
 */
module Services {
  import opened Wrappers

  /** Why a step was abandoned: the call that raised. */
  datatype Failure =
    | RecognitionFailed   // the speech recogniser (or the microphone) raised
    | DetectionFailed     // language detection raised
    | SentimentFailed     // sentiment scoring raised
    | TranslationFailed   // the translation client raised
    | SynthesisFailed     // speech synthesis into a temporary audio file raised
    | PlaybackFailed      // the local speech engine raised

  /**
   * The collaborators, as total functions of their arguments:
   * detect(text) holds when language detection returns,
   * sentiment(text) holds when sentiment scoring returns,
   * translate(text, code) is the translated text or None when the client raises,
   * synthesize(text, code) holds when the audio file is produced and played,
   * speakLocally(text) holds when the local speech engine finishes.
   */
  datatype Services = Services(
    detect: string -> bool,
    sentiment: string -> bool,
    translate: (string, string) -> Option<string>,
    synthesize: (string, string) -> bool,
    speakLocally: string -> bool)
}
