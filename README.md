# AI Voice Translator: conversation relay model

This project models the stateful core of a Streamlit speech translator (`app.py`):

- the **two-party conversation relay**. Speakers A and B take turns. Each press of *Speak* recognises speech and runs language detection. It then translates into the *listener's* language and synthesises audio in that language. Finally it appends one transcript entry tagged with the speaker and hands the turn to the other party. *Reset* empties the transcript and gives the turn back to A;
- the fixed **language table** mapping six language names to their codes;
- the **single-shot** *Translate & Speak* path. It refuses blank input and otherwise appends one `(input, translation)` pair to a history list that is created on first use.

External calls are parameters. These are the speech recogniser, language detection, sentiment scoring, the translation client, speech synthesis and the local speech engine. The recogniser's result is an `Option<string>`. The other calls are the total functions of a `Services` value: each either returns its result or stands for the call raising.

Every button press re-runs the whole page, so a press reaches its handler only if the page prelude returns first. The prelude runs language detection and sentiment scoring on the text-area contents whenever those are not blank (app.py:56-58, 65-68), outside any `try`. The model passes those contents to each button method, which evaluates the prelude on them first. A prelude that raises leaves the session state as it was, and so does a call that raises inside the relay's `try` block or the single-shot handler. The model states exactly that.

Modules:
- `Wrappers` holds `Option`.
- `Languages` holds the table.
- `Services` holds the collaborators and the failure kinds.
- `Text` models Python's `str.strip()` and its whitespace set.
- `Page` models the page prelude that runs before every button handler.
- `Relay` models the relay state and one step as values, plus the lemmas about sequences of steps.
- `Session.Conversation` is the session state as a class whose methods change it in place.
- `SingleShot` holds the single-shot path and its `History` class.

Three behaviours follow the code as written, where a cleaner design might differ:
- An empty recognised string is not rejected. It is passed on to detection and translation like any other text.
- A synthesis failure is fatal to the step. Synthesis and playback run before the append, inside the same `try`, so nothing is recorded.
- Language detection in the relay can abort the step. The detected language itself is unused.

## Model

| member | source | states |
|---|---|---|
| `Languages.Lookup` | app.py:25-32 | A name has a code exactly when it is one of Hindi, Tamil, French, German, Spanish or Japanese. The code is the one at the same position in hi, ta, fr, de, es, ja. Any other name has none. |
| `Languages.CodeOf` | app.py:131-132 | Subscripting the table with a selected name gives the code that lookup finds for it, and that code is one of the six codes. |
| `Text.IsSpace` | app.py:72 | The whitespace `strip()` removes is Python's `str.isspace` set. That set includes space, tab, newline and carriage return, and excludes every letter and digit. |
| `Text.TrimStart` | app.py:72 | Stripping leading whitespace leaves the suffix of the input that starts at a non-space (or nothing). Everything dropped is whitespace. |
| `Text.TrimEnd` | app.py:72 | Stripping trailing whitespace leaves the prefix of the input that ends at a non-space (or nothing). Everything dropped is whitespace. |
| `Text.Strip` | app.py:72 | The result of `strip()` is no longer than the text and neither starts nor ends with whitespace. |
| `Text.StripIsSlice` | app.py:72 | `strip()` gives the slice of the text left after removing whitespace at both ends, and everything removed is whitespace. |
| `Text.StripEmptyIffBlank` | app.py:72-73 | `text.strip() == ""` holds exactly when every character of the text is whitespace, the empty text included. |
| `Page.Prelude` | app.py:56-68 | The page run reaches its button handlers exactly when the text is blank, or when both detection and sentiment return on it. Otherwise it reports the call that raised, detection first. |
| `Relay.Other` | app.py:184 | The turn flip always hands the turn to the other speaker. |
| `Relay.ListenerCode` | app.py:161-166 | When A speaks, the translation target is B's code. When B speaks, it is A's code. |
| `Relay.Init` | app.py:135-140 | A session starts with an empty transcript and A's turn, which begins the alternation. Reset returns to this state (app.py:198-199). |
| `Relay.Attempt` | app.py:152-174 | A press relays exactly when the page prelude, recognition, detection, translation into the listener's code and synthesis all return. A prelude that raises is reported as its failure. When the prelude returns, the failure is a recognition failure exactly when recognition raised. A relayed entry carries the current speaker and the recognised text. Its translation is the client's result for the listener's code, and the audio language equals that translation target. |
| `Relay.Step` | app.py:152-187 | One press only appends to the transcript, and at most one entry. It appends exactly when the press relays (prelude and protected block both return), and then the new entry is tagged with the turn before the step and the turn flips. Otherwise the state is unchanged. |
| `Relay.StepKeepsAlternation` | app.py:177-184 | Every press, successful or failed, keeps the transcript alternating A, B, A, ... with the turn the next speaker in that pattern. |
| `Relay.ReplayAppendsRelays` | app.py:152-187 | Any sequence of presses keeps alternation and leaves earlier entries untouched. It grows the transcript by exactly the number of presses that relayed. |
| `Relay.ConversationFromStart` | app.py:134-187 | Start from the initial state and press any number of times, n of which relay. The transcript then has n entries, entry i is A's exactly when i is even, and it is A's turn exactly when n is even. |
| `Relay.FailuresChangeNothing` | app.py:186-187 | Any run of failed presses returns the state it started from. |
| `Relay.HelloBonjour` | app.py:161-184 | With A on Hindi, B on French, the page prelude returning and A to speak, hearing "hello" translated to "bonjour" gives the transcript [A: hello / bonjour] and B's turn. A recognition failure leaves the initial state. |
| `Session.Conversation.constructor` | app.py:125-140 | A new session has both selections on the first option (Hindi), an empty transcript and A's turn. |
| `Session.Conversation.Select` | app.py:126-132 | Changing the two language selections leaves the turn and every transcript entry as they were. |
| `Session.Conversation.Speak` | app.py:145-187 | The Speak button's result is the press's outcome for the current selections and text-area contents. On success the transcript is the old one plus exactly that entry and the turn is the other speaker. On failure, in the prelude or in the `try` block, both are unchanged. The new state is `Relay.Step` of the old one, so alternation is kept. |
| `Session.Conversation.Reset` | app.py:197-199 | Unless the page prelude raises, Reset yields the empty transcript and A's turn whatever the prior state. If it raises, nothing changes. The selections are kept either way. |
| `Session.ResetTwice` | app.py:197-199 | Two Reset presses with the same page leave the whole session state, selections included, exactly as one press does. |
| `SingleShot.Shot` | app.py:56-89 | Blank input, and only blank input, is rejected. A translation happens exactly when detection, sentiment, translation to the target, synthesis in the target and local speech all return. The recorded pair is the input and the client's translation. |
| `SingleShot.History.constructor` | app.py:92-93 | A session starts without a history. |
| `SingleShot.History.TranslateAndStore` | app.py:71-94 | The button's outcome follows `SingleShot.Shot` for the selected target. A translation creates the history if it is absent and appends exactly one `(input, translation)` pair at the end. A rejection or a failure leaves the history, and whether it exists, unchanged. |

## Left out

- Streamlit widgets, page layout and the loops that render the history and the transcript (app.py:20-22, 37, 97-101, 142, 190-194): presentation only.
- Microphone capture and Google speech recognition (app.py:41-51, 146-153): device and network I/O. Recognition is an `Option<string>` parameter. A missing microphone raises outside the `try` at app.py:147. That also aborts the run with no state change, which the `None` outcome covers.
- The translation client, gTTS, temporary files and audio playback or download (app.py:14, 75-84, 162-174): foreign calls, modelled only as returning or raising.
- pyttsx3 voice listing and selection (app.py:17, 35-37, 87): device I/O. Only whether the local speech at app.py:88-89 returns is modelled.
- The result of language detection (app.py:56-58, 157-158): a foreign statistical call. Only its raising is modelled: at app.py:56-58 it aborts the page run, and at app.py:157 it aborts only the relay step, because the `except` at app.py:186-187 catches it.
- The TextBlob sentiment polarity (app.py:65-68): a floating-point value for display. Only its raising, which aborts the run, is modelled.
- PDF export of the history (app.py:104-113): file formatting and I/O.
- The prototype conversation button (app.py:116-118): it only shows text.
- Concurrency: Streamlit runs one page script at a time per session, and each button press is a separate sequential run.
- Text.IsSpace: its contract names only the ASCII blanks, which are whitespace, and the letters and digits, which are not. The full `str.isspace` set of code points is in its body, not in its contract.
