/** The single-shot path: translate one text, speak it, and remember the pair. */
module SingleShot {
  import opened Wrappers
  import opened Text
  import opened Languages
  import opened Services
  import opened Page

  /** The outcome of pressing Translate & Speak. */
  datatype ShotResult =
    | Rejected                               // blank input: a warning, nothing else
    | Aborted(why: Failure)                  // a call raised and the run stopped
    | Translated(input: string, output: string)

  /**
   * Blank input is refused; otherwise the page prelude (detection and sentiment,
   * which run on every page run with non-blank text), translation, synthesis and
   * local speech must all return.
   */
  function Shot(text: string, code: string, services: Services): (r: ShotResult)
    ensures r == Rejected <==> Blank(text)
    ensures r.Translated? ==>
      && r.input == text
      && services.detect(text)
      && services.sentiment(text)
      && services.translate(text, code) == Some(r.output)
      && services.synthesize(r.output, code)
      && services.speakLocally(r.output)
    ensures (&& !Blank(text)
             && services.detect(text)
             && services.sentiment(text)
             && services.translate(text, code).Some?
             && services.synthesize(services.translate(text, code).value, code)
             && services.speakLocally(services.translate(text, code).value)) ==> r.Translated?
  {
    StripEmptyIffBlank(text);
    if Prelude(text, services).Some? then Aborted(Prelude(text, services).value)
    else if Strip(text) == "" then Rejected
    else
      match services.translate(text, code)
      case None => Aborted(TranslationFailed)
      case Some(translated) =>
        if !services.synthesize(translated, code) then Aborted(SynthesisFailed)
        else if !services.speakLocally(translated) then Aborted(PlaybackFailed)
        else Translated(text, translated)
  }

  /** The session's translation history, which exists only after the first successful translation. */
  class History {
    var created: bool
    var items: seq<(string, string)>

    ghost predicate Valid()
      reads this
    {
      !created ==> items == []
    }

    constructor ()
      ensures Valid() && !created && items == []
    {
      created := false;
      items := [];
    }

    /**
     * Translate & Speak with the target chosen by name: a success appends exactly one
     * (input, translation) pair, creating the history first if needed; anything else changes nothing.
     */
    method TranslateAndStore(text: string, target: string, services: Services) returns (r: ShotResult)
      requires Valid()
      requires target in Names
      modifies this
      ensures Valid()
      ensures r == Shot(text, CodeOf(target), services)
      ensures r.Translated? ==> created && items == old(items) + [(text, r.output)]
      ensures !r.Translated? ==> created == old(created) && items == old(items)
    {
      var targetCode := CodeOf(target);
      var preludeFailure := Prelude(text, services);
      if preludeFailure.Some? {
        return Aborted(preludeFailure.value);
      }
      StripEmptyIffBlank(text);
      if Strip(text) == "" {
        return Rejected;
      }
      var result := services.translate(text, targetCode);
      if result.None? {
        return Aborted(TranslationFailed);
      }
      var translated := result.value;
      if !services.synthesize(translated, targetCode) {
        return Aborted(SynthesisFailed);
      }
      if !services.speakLocally(translated) {
        return Aborted(PlaybackFailed);
      }
      if !created {
        created := true;
        items := [];
      }
      items := items + [(text, translated)];
      r := Translated(text, translated);
    }
  }
}
