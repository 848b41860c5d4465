# Mood message page — Dafny model

A model of the logic inside a small password-gated Streamlit page (`app.py`).
The page classifies a free-text mood into one of six emotion labels, looks the
label up in a message table, shows a special card on June 25, and sometimes
adds a random "memory". The foreign inputs are parameters of the model: the
sentiment polarity of the text, today's date, the parsed message file and the
two random draws.

Modules:

- `Wrappers` (`wrappers.dfy`): `Option`, `Result` and the two exceptions
  the model represents (`KeyError`, `IndexError`).
- `Text` (`text.dfy`): `str.lower()` on ASCII letters (`Lower`) and the
  substring test `word in text` (`Contains`), with the facts the classifier
  needs: lower-casing is idempotent and keeps substrings.
- `Sentiment` (`sentiment.dfy`): the closed label type `Emotion` and the
  first-match-wins ladder `Classify` of `analyze_sentiment`.
- `Messages` (`messages.dfy`): display records, the table, `load_emotions`
  with its built-in one-record fallback, and `emotions.get(label,
  emotions["default"])` as `Resolve`.
- `Page` (`page.dfy`): the special-date check, the birthday card, one pass
  through the feeling form, and the memory block.
- `Auth` (`auth.dfy`): the session flag as a `Session` class with an
  `Authenticate` method, and the flag over a history of page runs.

Three behaviours of the code worth noting:

- An empty submission is never classified. The form only acts on
  `submitted and user_input` (app.py:220). `Classify(0.0, "")` is still
  `Default`, as the classifier alone would answer.
- A "memories" list that is present but empty does not hide the memory
  block. `random.choice` raises on it, so `MemorySnippet` yields
  `Failure(IndexError)`. The card for the submission is already rendered
  by then, so `FeelingResponse` keeps the card and carries the memory
  outcome beside it.
- `Resolve` fails when the table has no "default" record, even for a
  label that is present. Python evaluates the fallback argument
  `emotions["default"]` before calling `get`.

The polarity is a `real` and the thresholds are exactly 3/10. The decimal
0.3 is not a double. Its nearest double lies just below 3/10, and the next
double lies above it. So for every double `p`, `p > 0.3` in Python holds
exactly when `p > 3/10` over the reals. The same holds at -0.3.

## Model

| member | source | states |
|---|---|---|
| `Text.Lower` | app.py:133-135 | `text.lower()` on ASCII letters, one character at a time; specified by `Text.LowerIdempotent` and `Text.ContainsLowered` |
| `Text.Contains` | app.py:133-135 | `word in text` holds exactly when some slice of `text` at some index equals `word` |
| `Text.LowerIdempotent` | app.py:133-135 | lower-casing an already lower-cased string changes nothing |
| `Text.ContainsLowered` | app.py:133-135 | a word occurring in the text in any casing occurs, lower-cased, in `text.lower()` |
| `Sentiment.Emotion.Key` | app.py:131-136 | every label is one of "happy", "sad", "angry", "nostalgic", "birthday", "default"; only `Default` gives "default" |
| `Sentiment.Classify` | app.py:127-136 | the `analyze_sentiment` ladder with the polarity passed in; specified rung by rung by `Sentiment.ClassifyCharacterized` and the lemmas below it |
| `Sentiment.PositiveIsHappy` | app.py:131 | polarity above 0.3 gives "happy" whatever the text says |
| `Sentiment.NegativeIsSad` | app.py:132 | polarity below -0.3 gives "sad" whatever the text says |
| `Sentiment.ClassifyCharacterized` | app.py:127-136 | each label is produced exactly when its own rung matches and no earlier rung does; "default" exactly when the polarity is in [-0.3, 0.3] and none of the three keywords is in the lower-cased text |
| `Sentiment.ClassifyIgnoresCase` | app.py:133-135 | at the same polarity, classifying the lower-cased text gives the same label as classifying the text |
| `Sentiment.AngryInAnyCaseWins` | app.py:133-135 | with a neutral score, "angry" in any casing makes the label "angry" whatever later keywords the text holds |
| `Sentiment.AngryBeforeBirthdayExample` | app.py:133-135 | "ANGRY about my birthday" with score 0 is "angry": first match wins |
| `Sentiment.EmptyTextIsDefault` | app.py:127-136 | the empty text with score 0 is "default" |
| `Messages.LoadEmotions` | app.py:140-151 | a failed open or parse gives the built-in table, whose only key is "default"; otherwise the parsed table |
| `Messages.Resolve` | app.py:225 | `emotions.get(label, emotions["default"])` with the fallback evaluated first; specified by `Messages.ResolveSpec` and `Messages.ResolveYieldsStoredRecord` |
| `Messages.ResolveSpec` | app.py:225 | lookup succeeds exactly when "default" is a key; it then gives `table[label]` when present and `table["default"]` otherwise; without "default" it raises `KeyError("default")` even for present labels |
| `Messages.ResolveYieldsStoredRecord` | app.py:225 | a successful lookup returns one of the table's own records |
| `Messages.FallbackResolvesEverything` | app.py:144-151 | with the built-in table every label resolves to "For You" / "Thinking of you!" / "You're amazing!" |
| `Page.IsBirthday` | app.py:187 | the special-date test against the constant (6, 25); specified by `Page.IsBirthdayExactly` |
| `Page.IsBirthdayExactly` | app.py:187 | the special-date test holds exactly on month 6, day 25, and ignores the year |
| `Page.BirthdayCard` | app.py:190-198 | a card is shown exactly on June 25; it is the "birthday" record if present, else the "default" record, and fails exactly when "default" is missing |
| `Page.MemorySnippet` | app.py:238-247 | the memory block is shown only when the draw is below 0.4 and a memories list exists; the shown memory comes from that list; an empty list raises `IndexError` |
| `Page.FeelingResponse` | app.py:220-247 | nothing happens unless the form was submitted with non-empty text; it then succeeds exactly when the table has "default" (else `KeyError("default")`); the label is the classifier's; the record is the label's own when present and the default record otherwise; the memory outcome is `MemorySnippet`'s, kept beside the card |
| `Page.CardSurvivesEmptyMemories` | app.py:227-247 | with an empty memories list and a draw below 0.4, the card is still produced with its label and the default record, and only the memory block raises `IndexError` |
| `Page.FallbackFeelingResponse` | app.py:224-225 | with the built-in table every non-empty submission gets the default record and no memory |
| `Page.FallbackBirthdayCard` | app.py:198 | with the built-in table the birthday card on June 25 is the default record |
| `Page.EmptyInputShowsNothing` | app.py:220 | an empty submission produces no card |
| `Auth.NextFlag` | app.py:158-177 | the flag after one run of `authenticate`; `Auth.Session.Authenticate` sets the flag to it, and `Auth.FlagStaysSet` and `Auth.FlagAfterIff` state its consequences |
| `Auth.FlagAfter` | app.py:154-177 | the flag of a new session after a history of runs; specified by `Auth.FlagAfterIff` |
| `Auth.FlagAfterIff` | app.py:154-177 | a session's flag is true after a history of runs exactly when some run submitted the configured username and password |
| `Auth.FlagStaysSet` | app.py:158 | once set, later runs never clear the flag |
| `Auth.Session.constructor` | app.py:155-156 | a new session starts unauthenticated |
| `Auth.Session.Authenticate` | app.py:154-178 | an authenticated session proceeds; otherwise no submission shows the form, a matching pair sets the flag and restarts the page, and a mismatch is rejected and leaves the flag false |
| `Auth.WrongThenRight` | app.py:172-177 | a wrong password is rejected, the right pair restarts the page, and the next run proceeds with the flag set |
| `Auth.SessionAfter` | app.py:154-178 | a new `Session` taken through any sequence of page runs ends with the flag `FlagAfter` gives, so it is set exactly when some run submitted the configured pair |

## Left out

- Rendering: CSS injection, the HTML cards, forms, balloons, the spinner, `st.stop`/`st.rerun` as control flow (kept only as the `Outcome` of `Authenticate`), the `emotion.title()` heading, and the note's `.get('note', '')` text (`Messages.Record.NoteText` is a plain definition).
- `setup_environment` and the NLTK downloads: package installation and path changes are process side effects.
- The polarity computation of the sentiment library: a floating-point score from foreign code, taken as a parameter.
- Opening and parsing `emotions.json`: I/O. `LoadEmotions` takes the parse outcome. The `st.cache_data` caching is not modelled.
- Documents whose shape is wrong are not modelled: a record without "title" or "message", or a "memories" value that is not a list of strings. These fail only when rendered.
- `datetime.now()`: today's date is a parameter.
- `time.sleep(1.5)`: pacing only.
- The distribution of `random.random()` and `random.choice`: both draws are parameters, so the long-run 40% frequency is not stated.
- Text.Lower: lower-cases ASCII letters only; Python's `str.lower()` also lower-cases other Unicode letters.
