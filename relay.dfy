/**
 * The two-party conversation relay as values: whose turn it is, the transcript,
 * and what one press of the Speak button does to them.
 */
module Relay {
  import opened Wrappers
  import opened Services

  datatype Speaker = A | B

  /** The participant who is not p: the listener when p speaks. */
  function Other(p: Speaker): (q: Speaker)
    ensures q != p
  {
    if p == A then B else A
  }

  /** The language code a participant selected. */
  function LanguageOf(p: Speaker, codeA: string, codeB: string): string {
    match p
    case A => codeA
    case B => codeB
  }

  /** The code a turn translates and speaks into: Speaker B's when A speaks, Speaker A's when B speaks. */
  function ListenerCode(turn: Speaker, codeA: string, codeB: string): (code: string)
    ensures code == LanguageOf(Other(turn), codeA, codeB)
  {
    if turn == A then codeB else codeA
  }

  /** One transcript record; it holds no language code, so a later selection cannot alter it. */
  datatype Entry = Entry(speaker: Speaker, spoken: string, translated: string)

  /** The conversation's session state: whose turn it is and the transcript so far. */
  datatype State = State(turn: Speaker, log: seq<Entry>)

  /** The state a session starts in, and the one Reset returns to: it starts the alternation. */
  function Init(): (s: State)
    ensures s.log == [] && s.turn == A
    ensures Alternating(s)
  {
    State(A, [])
  }

  /**
   * One press of the Speak button: how the page prelude ended (None when it
   * returned, otherwise the call that raised), the two selected codes at that
   * moment, what the recogniser heard (None when it raised) and the collaborators.
   */
  datatype Press = Press(prelude: Option<Failure>, codeA: string, codeB: string, heard: Option<string>, services: Services)

  /** What a press produced: the entry and the audio's language, or the call that raised. */
  datatype StepResult = Relayed(entry: Entry, voice: string) | Failed(why: Failure)

  /** Every call of the page prelude and of the protected block returns for this press when turn is speaking. */
  predicate AllCallsReturn(turn: Speaker, p: Press) {
    var target := LanguageOf(Other(turn), p.codeA, p.codeB);
    && p.prelude.None?
    && p.heard.Some?
    && p.services.detect(p.heard.value)
    && p.services.translate(p.heard.value, target).Some?
    && p.services.synthesize(p.services.translate(p.heard.value, target).value, target)
  }

  /**
   * A press: the page prelude, then the protected block, which recognises, detects,
   * translates into the listener's code, synthesises in that same code and builds the entry.
   */
  function Attempt(turn: Speaker, p: Press): (r: StepResult)
    ensures r.Relayed? <==> AllCallsReturn(turn, p)
    ensures p.prelude.Some? ==> r == Failed(p.prelude.value)
    ensures p.prelude.None? ==> (r == Failed(RecognitionFailed) <==> p.heard.None?)
    ensures r.Relayed? ==>
      && r.entry.speaker == turn
      && p.heard == Some(r.entry.spoken)
      && r.voice == LanguageOf(Other(turn), p.codeA, p.codeB)
      && p.services.translate(r.entry.spoken, r.voice) == Some(r.entry.translated)
  {
    if p.prelude.Some? then Failed(p.prelude.value)
    else match p.heard
    case None => Failed(RecognitionFailed)
    case Some(spoken) =>
      if !p.services.detect(spoken) then Failed(DetectionFailed)
      else
        var ttsLang := ListenerCode(turn, p.codeA, p.codeB);
        match p.services.translate(spoken, ttsLang)
        case None => Failed(TranslationFailed)
        case Some(translated) =>
          if !p.services.synthesize(translated, ttsLang) then Failed(SynthesisFailed)
          else Relayed(Entry(turn, spoken, translated), ttsLang)
  }

  /** The state after one press: the entry appended and the turn flipped together, or nothing changed. */
  function Step(s: State, p: Press): (s': State)
    ensures s.log <= s'.log && |s'.log| <= |s.log| + 1
    ensures |s'.log| == |s.log| + 1 <==> Attempt(s.turn, p).Relayed?
    ensures |s'.log| == |s.log| ==> s' == s
    ensures |s'.log| == |s.log| + 1 ==>
      s'.log[|s.log|] == Attempt(s.turn, p).entry && s'.log[|s.log|].speaker == s.turn && s'.turn == Other(s.turn)
  {
    match Attempt(s.turn, p)
    case Relayed(entry, _) => State(Other(s.turn), s.log + [entry])
    case Failed(_) => s
  }

  /** Who speaks the i-th entry of a conversation that starts with A. */
  function SpeakerAt(i: nat): Speaker {
    if i % 2 == 0 then A else B
  }

  /** The transcript alternates A, B, A, ... and the turn is the next speaker in that pattern. */
  predicate Alternating(s: State) {
    && (forall i :: 0 <= i < |s.log| ==> s.log[i].speaker == SpeakerAt(i))
    && s.turn == SpeakerAt(|s.log|)
  }

  /** Every press, successful or not, keeps a conversation alternating. */
  lemma StepKeepsAlternation(s: State, p: Press)
    requires Alternating(s)
    ensures Alternating(Step(s, p))
  {
    var t := Step(s, p);
    if |t.log| == |s.log| + 1 {
      assert SpeakerAt(|t.log|) == Other(SpeakerAt(|s.log|));
      forall i | 0 <= i < |t.log|
        ensures t.log[i].speaker == SpeakerAt(i)
      {
        if i < |s.log| {
          assert t.log[i] == s.log[i];
        }
      }
    }
  }

  /** The state after a sequence of presses, one after another. */
  function Replay(s: State, presses: seq<Press>): State
    decreases |presses|
  {
    if presses == [] then s else Replay(Step(s, presses[0]), presses[1..])
  }

  /** How many of the presses, replayed from s, relayed an entry. */
  function Relays(s: State, presses: seq<Press>): nat
    decreases |presses|
  {
    if presses == [] then 0
    else (if Attempt(s.turn, presses[0]).Relayed? then 1 else 0) + Relays(Step(s, presses[0]), presses[1..])
  }

  /** Replaying presses keeps the conversation alternating, only appends, and appends one entry per relay. */
  lemma {:induction false} ReplayAppendsRelays(s: State, presses: seq<Press>)
    requires Alternating(s)
    ensures var t := Replay(s, presses);
      && Alternating(t)
      && s.log <= t.log
      && |t.log| == |s.log| + Relays(s, presses)
    decreases |presses|
  {
    if presses != [] {
      var s1 := Step(s, presses[0]);
      StepKeepsAlternation(s, presses[0]);
      ReplayAppendsRelays(s1, presses[1..]);
    }
  }

  /**
   * From the initial state, after any presses of which n relayed: the transcript has
   * n entries, entry i is A's exactly when i is even, and it is A's turn exactly when n is even.
   */
  lemma ConversationFromStart(presses: seq<Press>)
    ensures var t := Replay(Init(), presses);
      && |t.log| == Relays(Init(), presses)
      && (forall i :: 0 <= i < |t.log| ==> (t.log[i].speaker == A <==> i % 2 == 0))
      && (t.turn == A <==> |t.log| % 2 == 0)
  {
    ReplayAppendsRelays(Init(), presses);
  }

  /** A failed press is a self-loop, however often it is repeated. */
  lemma {:induction false} FailuresChangeNothing(s: State, presses: seq<Press>)
    requires Relays(s, presses) == 0
    ensures Replay(s, presses) == s
    decreases |presses|
  {
    if presses != [] {
      assert Step(s, presses[0]) == s;
      FailuresChangeNothing(s, presses[1..]);
    }
  }

  /**
   * The worked example: A selected Hindi, B French, the page prelude returned, it is
   * A's turn, the recogniser hears "hello" and French translation gives "bonjour".
   */
  lemma HelloBonjour(services: Services)
    requires services.detect("hello")
    requires services.translate("hello", "fr") == Some("bonjour")
    requires services.synthesize("bonjour", "fr")
    ensures Step(Init(), Press(None, "hi", "fr", Some("hello"), services)) == State(B, [Entry(A, "hello", "bonjour")])
    ensures Step(Init(), Press(None, "hi", "fr", None, services)) == Init()
  {
  }
}
