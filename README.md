# TalentScout hiring assistant: the conversation state machine

This project models the conversation driver of the TalentScout Hiring Assistant, a
Streamlit script (`app.py`). The driver takes one candidate through a screening chat.
First it collects the profile fields one answer at a time: name, email, phone, years
of experience, role, location and tech stack. Then it has a language model generate
interview questions, scores each answer with that model, and closes with a report on
the average score. An exit word typed at any point ends the conversation.

All the state lives in Streamlit's `st.session_state`. The model mirrors that record
twice:

- `Conversation.State` is a value with a pure transition function for each kind of
  script run. `Turn` is a run with user input: mood analysis, the global exit check,
  the refusal after completion, then the step handler (`Dispatch`). `Auto` is a run
  without input: the greeting, question generation, question presentation and the
  report. `Script` chooses between them as the script does. `Initial` is the session
  after initialisation or reset.
- `Sessions.Session` is a class whose fields are the session keys. Its methods
  `SubmitTurn`, `HandleStep`, `AutoStep`, `RunScript`, `Reset` and `AddMessage` update
  the fields in place. Each method is proved to end in exactly the state, and with
  exactly the outcome, that the pure function gives.

The step values are the code's own: `greeting`, `get_email`, `get_phone`,
`get_experience`, `get_role`, `get_location`, `get_tech_stack`,
`generate_questions`, `interview`, `report`, `completed` and `error`.

A script run ends in one of four ways:

- with `st.rerun()` (`Rerun`);
- with `st.stop()` (`Halt`);
- by reaching the end of the script and waiting for input (`Idle`);
- with an uncaught Python exception (`Crashed`).

The model covers three exceptions the code can raise:

- an answer typed in `interview` after the last question (`IndexError` on
  `questions[current_idx]`);
- question generation with no experience stored (`TypeError` on `None >= 5`);
- a report over an empty score list (`ZeroDivisionError`). This one is reachable
  when the model returns an empty question list.

Every call to the Groq language model is an oracle, a field of the `Oracle` record that
the runs take as a parameter:

- `analyze` gives the sentiment and language pair;
- `translate` gives the translation of a fixed phrase;
- `evaluate` gives `Option<Score>`, where `None` stands for a failed call or failed
  JSON decoding;
- `generate` gives the question list or the exception text;
- `acknowledge` gives the short thank-you;
- `summarize` gives the closing text.

Each helper's own fallback is part of what its oracle returns:

- `analyze_sentiment_and_language` returns ("Neutral", "English") on failure;
- `translate_text` returns its input text on failure;
- `get_bot_response` returns its apology text on failure.

The one translation fact the model keeps is that the target "English" returns the
phrase unchanged without a call to the model (`Conversation.Translate`).

Four behaviours of the code are easy to miss; the model keeps them as written:

- the exit check applies even after `completed`;
- the question-generation failure asks the candidate to type 'restart', but no
  handler exists for it, so in `error` a turn only records the user message;
- scores are not validated: the evaluator's JSON is appended as it comes;
- sentiment analysis falls back to "English", not to the previous language.

`int()` on the experience answer follows CPython 3.11 and later: a digit string longer
than the default cap of 4300 digits (`sys.get_int_max_str_digits()`) raises
`ValueError`, and the bare `except:` then asks again, as for an answer with no digit.

## Model

| member | source | states |
|---|---|---|
| ExitCheck.ExitRequested | app.py:94-103 | the exit condition: a keyword as a whole word of the lower-cased text, or the end phrase anywhere in it |
| ExitCheck.CheckExit | app.py:94-103 | returns true exactly when the lower-cased text holds one of exit/quit/stop/bye/terminate/goodbye as a whole word (`\b` on both sides), or holds "end conversation" anywhere; the keywords are tried in order with an early return |
| ExitCheck.SearchWordFinds | app.py:99 | the scan for `\b<keyword>\b` succeeds exactly when some position holds the keyword with no word character touching it |
| ExitCheck.SearchPhraseFinds | app.py:101 | the substring test succeeds exactly when the phrase occurs at some position |
| ExitCheck.ExitByScan | app.py:94-103 | the exit condition is equivalent to the six keyword scans and the phrase scan of the lower-cased text |
| ExitCheck.NoKeywordIsNoExit | app.py:94-103 | a text in which no keyword stands as a whole word and the end phrase does not occur is not an exit |
| ExitCheck.MissingLetter | app.py:96-101 | a text lacking one letter of a word, in either case, holds that word nowhere once lower-cased, neither whole nor inside another word |
| ExitCheck.WholeKeywordIsAnExit | app.py:97-100 | any keyword standing as a whole word in the lower-cased text is an exit |
| ExitCheck.ExitedIsNotAnExit | app.py:97-99 | "exited" does not end the conversation |
| ExitCheck.UpperCaseQuitIsAnExit | app.py:96-100 | "I QUIT" ends the conversation: case is ignored |
| Scenarios.BusStopIsAnExit | app.py:94-103 | "Near the bus stop" ends the conversation: the check looks at whole words, not meaning |
| Scenarios.StopIsAnExit | app.py:94-103 | "stop" on its own ends the conversation |
| Scenarios.YearsAreNotAnExit | app.py:94-103 | "I have 5 years" is not an exit |
| Scenarios.StackIsNotAnExit | app.py:94-103 | "Go, Docker" is not an exit |
| Text.Lower | app.py:96 | lower-casing keeps the length and maps each character to its lower-case form |
| Text.DigitsOf | app.py:238 | the filtered text holds only digits and is no longer than the input |
| Text.DigitsOfAppend | app.py:238 | filtering the digits distributes over concatenation, so digits keep their order |
| Text.DigitsOfExtremes | app.py:238 | a digit string is kept whole, and the filter gives "" exactly when the text holds no digit |
| Text.Strip | app.py:260 | the result of `strip()` neither starts nor ends with whitespace and is no longer than the input |
| Text.StripKeepsMiddle | app.py:260 | `strip()` removes only a whitespace prefix and a whitespace suffix: its result is a contiguous slice of the input with only whitespace around it |
| Text.StripFromStops | app.py:260 | the leading scan stops exactly at the first non-whitespace character |
| Text.StripToStops | app.py:260 | the trailing scan stops exactly after the last non-whitespace character |
| Text.Split | app.py:260 | `split(",")` gives at least one piece, no piece holds the separator, and joining the pieces with it gives back the text |
| Text.SplitJoin | app.py:260 | splitting a join of separator-free pieces gives back exactly those pieces, empty ones included |
| Text.NatToString | app.py:346 | `str(n)` is a non-empty digit string without a leading zero |
| Text.DecimalValue | app.py:238 | the value `int` gives a digit string, read left to right |
| Text.Join | app.py:141 | `sep.join(parts)`: the parts with the separator between neighbours |
| Text.DecimalOfNatToString | app.py:238 | `int(str(n)) == n` |
| Intake.ParseExperience | app.py:237-245 | the parse succeeds exactly when the answer holds at least one ASCII digit and no more than 4300 of them; otherwise `int` raises and the retry branch runs |
| Intake.ParseSurroundedNumber | app.py:238 | a number written among digit-free text is read back exactly, unless it has more than 4300 digits, when the parse fails |
| Intake.ParseConcatenatesNumbers | app.py:238 | two numbers in one answer are read as their digits run together (m·10^len(n) + n), or fail to parse when together they exceed 4300 digits |
| Intake.DecimalValueAppend | app.py:238 | `int(a + b) == int(a) * 10^len(b) + int(b)` for digit strings |
| Intake.SplitTechStack | app.py:260 | one entry per comma-separated piece, in order: entry k is the k-th piece of `split(",")` stripped, so empty and repeated entries are kept; every entry is free of commas and of surrounding whitespace |
| Intake.StripKeepsNoComma | app.py:260 | stripping a comma-free piece leaves it comma-free |
| Intake.TechStackIgnoresPadding | app.py:260 | whatever whitespace surrounds each stripped, comma-free entry, splitting the comma-joined text gives back exactly the entries |
| Intake.TechStackRoundTrip | app.py:141 | splitting `', '.join(stack)` gives back the stack whenever no entry holds a comma or surrounding whitespace |
| Intake.StripOfPadded | app.py:260 | stripping recovers a stripped entry from any whitespace around it |
| Intake.Difficulty | app.py:319 | the tier asked for: advanced from 5 years, intermediate from 2, basic below |
| Intake.DifficultyIsMonotone | app.py:319 | more experience never lowers the difficulty tier |
| Intake.DifficultyExamples | app.py:319 | 1 year gives basic, 3 gives intermediate, 7 gives advanced |
| Intake.MeanOf | app.py:367 | the mean of one score's three criteria, exactly |
| Intake.SumOfMeans | app.py:367 | the sum of the per-answer means, added left to right |
| Intake.AverageScore | app.py:367 | the sum divided by the number of scores; defined for a non-empty list only |
| Intake.SumOfMeansBounds | app.py:367 | the sum of n per-answer means lies between n times any lower and n times any upper bound of them |
| Intake.AverageWithin | app.py:367 | the mean of the per-answer means lies within any bounds that every per-answer mean respects |
| Intake.AverageOnScale | app.py:367 | scores on the 1-5 scale average into [1, 5] |
| Intake.AverageOfFallbacks | app.py:309 | when every evaluation fell back to 1/1/1, the average is 1 |
| Conversation.Translate | app.py:77-79 | for the target "English" the phrase is kept as written without a call to the model; otherwise the model's translation is used |
| Properties.ExitPreemptsEveryStep | app.py:205-209 | an exit turn, from any step and also after completion, appends exactly the user message and the fixed farewell, sets `completed` and changes no profile, question, answer or score |
| Properties.CompletedRefusesInput | app.py:211-213 | in `completed` a turn that is not an exit stops the run; nothing is appended and only the mood changes |
| Properties.CompletedStaysCompleted | app.py:200-213 | one run leaves a completed session completed, its records intact and its transcript only extended |
| Properties.OnlyResetLeavesCompleted | app.py:200-213 | no sequence of runs without a reset leaves `completed` or changes the profile, questions, answers or scores |
| Properties.VerbatimFieldTurn | app.py:218-257 | for greeting, get_email, get_phone, get_role and get_location: the answer is stored verbatim in its field, the user message and one assistant message are appended, the step advances one position, the mood is the analysis of the answer, and nothing else changes |
| Properties.ExperienceTurn | app.py:236-245 | in get_experience the step advances to get_role exactly when `int` reads the answer's ASCII digits (at least one, at most 4300), storing the parsed number and appending the user message and the role prompt; otherwise the step and profile stay and the user message and the retry prompt are appended; the mood is the analysis of the answer and questions, index, answers and scores are unchanged |
| Properties.TechStackTurn | app.py:259-266 | the split tech stack is stored, the user message and the generating notice are appended, the step becomes generate_questions, the mood is the analysis of the answer, and nothing else changes |
| Properties.UnhandledStepOnlyRecordsInput | app.py:214-216 | in generate_questions, report and error a turn that is not an exit only appends the user message |
| Properties.GenerationRun | app.py:317-352 | generation asks for the tier of the stored experience; on success the questions are stored, the step becomes interview and one message is appended; on failure one error message is appended and the step becomes error |
| Properties.InterviewAnswer | app.py:268-312 | an answer appends exactly one score (the evaluator's, or 1/1/1 on failure) and one answer, and increments the question index by one |
| Properties.PresentationRun | app.py:354-363 | the current question is appended unless the transcript already ends with it; past the last question the step becomes report |
| Properties.PresentationIsIdempotent | app.py:356-360 | a second run without input after a question was shown appends nothing |
| Properties.GreetingIsShownOnce | app.py:180-195 | on an empty transcript the run appends the welcome and changes nothing else; on a non-empty transcript it changes nothing; and a later run without input changes nothing |
| Properties.ReportRun | app.py:365-378 | the report appends one closing message built from the average score and sets completed; with no scores the division fails and nothing changes |
| Conversation.Initial | app.py:20-53 | every session key with its default: no messages, greeting, an empty profile, no questions, answers or scores, index 0, Neutral and English |
| Conversation.Wellformed | app.py:268-312 | the invariant the handlers keep: one score and one answer per question index reached, the index within the question list, index 0 before the interview, experience stored from get_role through generate_questions, all questions answered at the report |
| Conversation.Turn | app.py:200-216 | a run with user input: the mood, the global exit check, the refusal after completion, then the step handler |
| Conversation.Dispatch | app.py:218-314 | the step handlers, run after the user message is recorded |
| Conversation.Auto | app.py:317-378 | a run without input: question generation, question presentation and the report (and the greeting) |
| Conversation.Script | app.py:179-378 | one script run: the greeting block, then the input branch or the automatic blocks |
| Properties.InitialIsWellformed | app.py:20-53 | the initial session satisfies the invariant |
| Properties.TurnKeepsWellformed | app.py:200-314 | every run with input keeps `len(scores) == len(answers) == current_q_idx <= len(questions)` and the rest of the invariant |
| Properties.DispatchKeepsWellformed | app.py:218-314 | every step handler keeps the invariant |
| Properties.AutoKeepsWellformed | app.py:317-378 | every run without input keeps the invariant |
| Properties.ApplyKeepsWellformed | app.py:169-172 | a script run or a reset keeps the invariant |
| Properties.RunKeepsWellformed | app.py:200-378 | the invariant holds after any sequence of runs and resets |
| Properties.CrashesOfWellformedSessions | app.py:271 | in a well-formed session, a turn crashes only on an answer past the last question, and a run without input crashes exactly on a report over an empty question list |
| Properties.ScriptKeepsScoresOnScale | app.py:296-309 | when the evaluator keeps to the 1-5 scale, every recorded score stays on it, the fallback included |
| Properties.RunKeepsScoresOnScale | app.py:296-309 | the same over any sequence of runs and resets |
| Properties.ReportedAverageOnScale | app.py:367 | with evaluators on the scale, the average the report announces lies in [1, 5] |
| Properties.AutoMakesProgress | app.py:317-378 | every run without input that reruns strictly lowers the count of pending reruns, so automatic reruns stop after at most three |
| Properties.TurnNeverMovesBack | app.py:200-314 | no run with input moves the step backwards in the fixed order |
| Properties.AutoNeverMovesBack | app.py:317-377 | no run without input moves the step backwards in the fixed order |
| Properties.StepNeverMovesBack | app.py:218-377 | no run moves the step backwards in the fixed order |
| Properties.RunNeverMovesBack | app.py:218-377 | the same over any sequence of runs without a reset |
| Scenarios.FiveYears | app.py:238 | "I have 5 years" parses to 5 |
| Scenarios.ParseTwoSingleDigits | app.py:238 | two one-digit numbers among digit-free text are read as the two-digit number 10·m + n |
| Scenarios.OneToTwoYearsIsTwelve | app.py:238 | "1 to 2 years" parses to 12 |
| Scenarios.SpelledOutYearsAreRejected | app.py:243-245 | "five" holds no digit and is rejected |
| Scenarios.TechStackExample | app.py:260 | "Python, Go , Rust" splits into ["Python", "Go", "Rust"] |
| Scenarios.ShortStackExample | app.py:260 | "Go, Docker" splits into ["Go", "Docker"] |
| Scenarios.ProfileCollection | app.py:180-266 | after the welcome, seven non-exit answers with a number in the fourth collect the profile as typed and reach generate_questions with fifteen messages |
| Scenarios.ProfileWalkThrough | app.py:218-352 | Ada's answers collect her profile, and generation asks for advanced questions about Go and Docker |
| Scenarios.StopAtPhoneQuestion | app.py:205-213 | "stop" at the phone question completes the conversation before the phone is stored, and a later non-exit answer halts |
| Sessions.Session.constructor | app.py:20-53 | the first run creates every key with its default |
| Sessions.Session.Reset | app.py:169-172 | the reset restores every field to its initial value |
| Sessions.Session.AddMessage | app.py:91-92 | appends one transcript entry and changes nothing else |
| Sessions.Session.SubmitTurn | app.py:200-216 | updates the session exactly as `Conversation.Turn` does: mood, exit check, refusal after completion, then the step handler |
| Sessions.Session.HandleStep | app.py:218-314 | updates the session exactly as the step handlers in `Conversation.Dispatch` do |
| Sessions.Session.AutoStep | app.py:317-378 | updates the session exactly as the automatic blocks in `Conversation.Auto` do |
| Sessions.Session.RunScript | app.py:179-378 | one script run updates the session exactly as `Conversation.Script` does and keeps the invariant |

## Left out

- Rendering is left out: page configuration, CSS, chat bubbles, `st.status`, warnings,
  and the sidebar profile and insight cards. This is presentation only.
- The progress bar is left out. It is float arithmetic for display only.
- The language selectbox is left out. Syncing it with the detected language, and its
  extra rerun, depend on widget state.
- The contents of every Groq prompt and reply are oracle parameters. The model only
  records which data each prompt carries.
- The JSON that `evaluate` returns is modelled as a triple of integers. The code appends
  the decoded value as it comes, and the report reads only the three keys, so extra keys
  are harmless. Not represented: a dict missing one of the keys, which fails in the
  report with a `KeyError`; non-dict JSON or string values, which fail there with a
  `TypeError`; and float values, which are accepted and give non-integer means.
- `round(avg_score, 2)` is left out. The summary oracle receives the exact average,
  and Python's float division is modelled as exact `real` division.
- The no-op short-answer check is left out.
- The status label translated after generation ("Questions Ready!") is left out. It
  is only displayed.
- The API-integration test script is left out. It makes network calls and holds no
  application logic.
- Streamlit's `st.rerun()` and `st.stop()` are assumed to end the run even inside
  `try ... except Exception`, as Streamlit's control-flow exceptions do not derive
  from `Exception`.
- Text.Lower: lower-cases ASCII letters only. Python's `str.lower` also folds
  non-ASCII letters.
- ExitCheck.ExitRequested: the word characters of `\b` are the ASCII ones. Python's
  `re` counts every Unicode letter and digit.
- ExitCheck.CheckExit: its `\b` and its lower-casing are ASCII-only, as for
  `ExitRequested` and `Text.Lower`.
- Text.DigitsOf: keeps ASCII digits only. Python's `str.isdigit` also accepts other
  Unicode digits, some of which `int` then rejects.
- Intake.ParseExperience: reads ASCII digits only, so it differs from the code on other
  Unicode digits. For "５" (fullwidth five) the code stores 5 while the model asks
  again; for "5²" `int` raises on the superscript, so the code asks again while the
  model stores 5.
- Properties.ExperienceTurn: inherits the ASCII-only digits of `Intake.ParseExperience`.
