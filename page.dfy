/**
 * What every run of the page does before any button handler: the text-area
 * contents, when not blank, go through language detection and sentiment scoring,
 * and either call raising stops the run, so the pressed button has no effect.
 */
module Page {
  import opened Wrappers
  import opened Text
  import opened Services

  /**
   * None when the prelude returns, otherwise the call that raised. The page's guard
   * `text.strip()` is empty exactly when the text is Blank (Text.StripEmptyIffBlank),
   * so the guard is written here as Blank.
   */
  function Prelude(text: string, services: Services): (r: Option<Failure>)
    ensures r.None? <==> Blank(text) || (services.detect(text) && services.sentiment(text))
    ensures r.Some? ==> r.value == (if services.detect(text) then SentimentFailed else DetectionFailed)
  {
    if Blank(text) then None
    else if !services.detect(text) then Some(DetectionFailed)
    else if !services.sentiment(text) then Some(SentimentFailed)
    else None
  }
}
