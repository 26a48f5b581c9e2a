/**
 * The conversation as the session keeps it: the two language selections,
 * whose turn it is and the transcript, changed in place by the page's buttons.
 */
module Session {
  import opened Wrappers
  import opened Languages
  import opened Services
  import opened Relay
  import opened Page

  class Conversation {
    var langA: string        // Speaker A's selection box
    var langB: string        // Speaker B's selection box
    var turn: Speaker
    var log: seq<Entry>

    /** Selections come from the table and the transcript alternates starting with A. */
    ghost predicate Valid()
      reads this
    {
      langA in Names && langB in Names && Alternating(State(turn, log))
    }

    /** The relay state, for stating what the buttons do in terms of Relay.Step. */
    function Snapshot(): State
      reads this
    {
      State(turn, log)
    }

    /** The first run of a session: both selections on the first option, an empty transcript, A to speak. */
    constructor ()
      ensures Valid()
      ensures langA == Names[0] && langB == Names[0]
      ensures Snapshot() == Init()
    {
      langA, langB := Names[0], Names[0];
      log := [];
      turn := A;
    }

    /** Choosing new languages touches neither the turn nor the transcript. */
    method Select(nameA: string, nameB: string)
      requires Valid()
      requires nameA in Names && nameB in Names
      modifies this
      ensures Valid()
      ensures langA == nameA && langB == nameB
      ensures turn == old(turn) && log == old(log)
    {
      langA, langB := nameA, nameB;
    }

    /**
     * The Speak button: after the page prelude on the text-area contents, recognise,
     * detect, translate and synthesise for the listener, then append the entry and
     * flip the turn; when any call raises, nothing changes.
     */
    method Speak(pageText: string, heard: Option<string>, services: Services) returns (r: StepResult)
      requires Valid()
      modifies this
      ensures Valid()
      ensures langA == old(langA) && langB == old(langB)
      ensures r == Attempt(old(turn), Press(Prelude(pageText, services), CodeOf(langA), CodeOf(langB), heard, services))
      ensures Snapshot() == Step(old(Snapshot()), Press(Prelude(pageText, services), CodeOf(langA), CodeOf(langB), heard, services))
      ensures r.Relayed? ==> log == old(log) + [r.entry] && r.entry.speaker == old(turn) && turn == Other(old(turn))
      ensures r.Failed? ==> log == old(log) && turn == old(turn)
    {
      var speakerACode := CodeOf(langA);
      var speakerBCode := CodeOf(langB);
      var preludeFailure := Prelude(pageText, services);
      ghost var press := Press(preludeFailure, speakerACode, speakerBCode, heard, services);
      StepKeepsAlternation(Snapshot(), press);
      if preludeFailure.Some? {
        return Failed(preludeFailure.value);
      }
      if heard.None? {
        return Failed(RecognitionFailed);
      }
      var spoken := heard.value;
      if !services.detect(spoken) {
        return Failed(DetectionFailed);
      }
      var ttsLang;
      var translated;
      if turn == A {
        translated := services.translate(spoken, speakerBCode);
        ttsLang := speakerBCode;
      } else {
        translated := services.translate(spoken, speakerACode);
        ttsLang := speakerACode;
      }
      if translated.None? {
        return Failed(TranslationFailed);
      }
      if !services.synthesize(translated.value, ttsLang) {
        return Failed(SynthesisFailed);
      }
      var entry := Entry(turn, spoken, translated.value);
      log := log + [entry];
      turn := if turn == A then B else A;
      r := Relayed(entry, ttsLang);
    }

    /**
     * The Reset button: unless the page prelude raises first, back to the initial
     * state whatever came before; the selections are kept either way.
     */
    method Reset(pageText: string, services: Services) returns (r: Option<Failure>)
      requires Valid()
      modifies this
      ensures Valid()
      ensures r == Prelude(pageText, services)
      ensures Snapshot() == if r.None? then Init() else old(Snapshot())
      ensures langA == old(langA) && langB == old(langB)
    {
      r := Prelude(pageText, services);
      if r.Some? {
        return;
      }
      log := [];
      turn := A;
    }
  }

  /** Pressing Reset twice leaves the session exactly as pressing it once does. */
  method ResetTwice(c: Conversation, pageText: string, services: Services)
    requires c.Valid()
    modifies c
    ensures c.Valid()
    ensures c.Snapshot() == if Prelude(pageText, services).None? then Init() else old(c.Snapshot())
    ensures c.langA == old(c.langA) && c.langB == old(c.langB)
  {
    var first := c.Reset(pageText, services);
    var second := c.Reset(pageText, services);
  }
}
