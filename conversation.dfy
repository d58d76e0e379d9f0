/** The conversation state machine of the hiring assistant, as pure functions over a
    snapshot of the session record: what one script run does with a user turn (`Turn`)
    and what one script run without input does (`Auto`). */
module Conversation {
  import opened Wrappers
  import opened Text
  import opened ExitCheck
  import opened Intake

  // ---------------------------------------------------------------------------
  // Session record
  // ---------------------------------------------------------------------------

  /** The values `st.session_state.step` takes. */
  datatype Step =
    | Greeting | GetEmail | GetPhone | GetExperience | GetRole | GetLocation | GetTechStack
    | GenerateQuestions | Interview | Report | Completed | Error

  /** The step that follows in the fixed order of the conversation; `Completed` and
      `Error` have no successor. */
  function Next(step: Step): Step {
    match step
    case Greeting => GetEmail
    case GetEmail => GetPhone
    case GetPhone => GetExperience
    case GetExperience => GetRole
    case GetRole => GetLocation
    case GetLocation => GetTechStack
    case GetTechStack => GenerateQuestions
    case GenerateQuestions => Interview
    case Interview => Report
    case Report => Completed
    case Completed => Completed
    case Error => Error
  }

  /** The position of a step in that order (`Error` sits beside `GenerateQuestions`). */
  function Position(step: Step): nat {
    match step
    case Greeting => 0
    case GetEmail => 1
    case GetPhone => 2
    case GetExperience => 3
    case GetRole => 4
    case GetLocation => 5
    case GetTechStack => 6
    case GenerateQuestions => 7
    case Error => 7
    case Interview => 8
    case Report => 9
    case Completed => 10
  }

  datatype Role = User | Assistant

  /** One transcript entry, `{"role": ..., "content": ...}`. */
  datatype Message = Message(role: Role, content: Content)

  /** The text of an entry: one of the assistant's fixed phrases in its English wording,
      or any other text (what the user typed, a translation, a question, a reply of the
      language model). `Shown` is the string the transcript holds. */
  datatype Content = Fixed(phrase: Phrase) | Free(text: string)

  function Shown(c: Content): string {
    match c
    case Fixed(p) => Wording(p)
    case Free(text) => text
  }

  /** `st.session_state.candidate`; `None` is Python's `None`. */
  datatype Candidate = Candidate(
    name: Option<string>,
    email: Option<string>,
    phone: Option<string>,
    experience: Option<nat>,
    role: Option<string>,
    location: Option<string>,
    techStack: seq<string>)

  const EmptyCandidate: Candidate := Candidate(None, None, None, None, None, None, [])

  /** A snapshot of `st.session_state`. */
  datatype State = State(
    step: Step,
    messages: seq<Message>,
    candidate: Candidate,
    questions: seq<string>,
    currentQIdx: nat,
    answers: seq<string>,
    scores: seq<Score>,
    sentiment: string,
    language: string)

  /** The session record as the initialisation block creates it. */
  function Initial(): State {
    State(Greeting, [], EmptyCandidate, [], 0, [], [], "Neutral", "English")
  }

  // ---------------------------------------------------------------------------
  // The language model, as oracles
  // ---------------------------------------------------------------------------

  /** The sentiment and language read from a user message. */
  datatype Mood = Mood(sentiment: string, language: string)

  /** What each prompt to the language model carries. */
  datatype EvaluationRequest = EvaluationRequest(name: Option<string>, question: string, answer: string)
  datatype QuestionRequest = QuestionRequest(
    name: Option<string>, role: Option<string>, language: string, techStack: seq<string>, difficulty: Tier)
  datatype AcknowledgementRequest = AcknowledgementRequest(name: Option<string>, language: string)
  datatype SummaryRequest = SummaryRequest(name: Option<string>, language: string, average: real)

  /** The replies of the language model. Each call's own fallback is part of the reply:
      `analyze` already returns ("Neutral", "English") on failure, `translate` (given a
      phrase, whose wording it translates) the wording itself, `acknowledge` and `summarize` the apology text. `evaluate` is None when the
      call or its JSON decoding fails; `generate` fails with the exception text. */
  datatype Oracle = Oracle(
    analyze: string -> Mood,
    translate: (Phrase, string) -> string,
    evaluate: EvaluationRequest -> Option<Score>,
    generate: QuestionRequest -> Result<seq<string>, string>,
    acknowledge: AcknowledgementRequest -> string,
    summarize: SummaryRequest -> string)

  /** `translate_text` on a fixed phrase: for English the wording is kept as it is,
      without asking the model. */
  function Translate(p: Phrase, target: string, o: Oracle): (c: Content)
    ensures target == "English" ==> c == Fixed(p)
    ensures target != "English" ==> c == Free(o.translate(p, target))
  {
    if target == "English" then Fixed(p) else Free(o.translate(p, target))
  }

  // ---------------------------------------------------------------------------
  // Fixed texts
  // ---------------------------------------------------------------------------

  /** The assistant's fixed texts, some with a value filled in (a count as its
      decimal digits). */
  datatype Phrase =
    | Welcome | EmailPrompt(name: string) | PhonePrompt | ExperiencePrompt | RolePrompt
    | ExperienceRetry | LocationPrompt | TechStackPrompt | GeneratingNotice
    | QuestionsReady(count: string) | GenerationFailed(error: string) | EvaluationGlitch | Farewell

  /** The English wording of each phrase, character for character. */
  function Wording(p: Phrase): string {
    match p
    case Welcome =>
      "\n    Hello! \U{1F44B} I'm your **TalentScout Hiring Assistant**. \n    \n    My purpose is to help our recruiting team get to know you better by:\n    1. Gathering your professional background and tech stack.\n    2. Conducting a short, tailored technical screening based on your expertise.\n    3. Providing a summary of our conversation to our human recruiters.\n    \n    *Note: You can type **'exit'** or **'quit'** at any time to end this conversation.*\n    \n    To get started, could you please tell me your **full name**?\n    "
    case EmailPrompt(name) =>
      "Nice to meet you, " + name + "! What is your **email address**?"
    case PhonePrompt =>
      "Got it. And what is your **phone number**?"
    case ExperiencePrompt =>
      "Great. How many **years of experience** do you have in the tech industry?"
    case RolePrompt =>
      "What **position** are you applying for?"
    case ExperienceRetry =>
      "I didn't quite catch that. Please provide the number of years as a digit."
    case LocationPrompt =>
      "Where are you **currently located**?"
    case TechStackPrompt =>
      "Excellent. Finally, please list your **tech stack** (languages, frameworks, tools) separated by commas."
    case GeneratingNotice =>
      "Thank you for sharing your background! I'm now generating some tailored technical questions for you. Please wait a moment..."
    case QuestionsReady(count) =>
      "I've prepared " + count + " questions for you. Let's start!"
    case GenerationFailed(error) =>
      "I encountered an error generating questions: " + error + ". Please type 'restart' to try again."
    case EvaluationGlitch =>
      "I'm having a technical glitch evaluating that answer. Moving to the next question for now."
    case Farewell =>
      "I understand you'd like to end the conversation. Thank you for your time today! Your session has been closed. Have a great day! \U{1F44B}"
  }

  /** An assistant message: the phrase, translated into the session's language. */
  function Say(s: State, p: Phrase, o: Oracle): Message {
    Message(Assistant, Translate(p, s.language, o))
  }

  // ---------------------------------------------------------------------------
  // One script run
  // ---------------------------------------------------------------------------

  /** The uncaught Python exceptions a run can end in. */
  datatype Crash =
    | IndexOutOfRange    // `questions[current_idx]` past the end
    | MissingExperience  // `None >= 5`
    | DivisionByZero     // `... / len(scores)` with no scores

  /** How a script run ends: `st.rerun()`, `st.stop()`, by reaching the end of the script
      (waiting for the next input), or with an exception. */
  datatype Outcome = Rerun | Halt | Idle | Crashed(crash: Crash)

  datatype Transition = Transition(state: State, outcome: Outcome)

  /** A run with user input `text`: mood analysis, the global exit check, the refusal
      after completion, then the handler of the current step. */
  ghost function Turn(s: State, text: string, o: Oracle): Transition {
    var mood := o.analyze(text);
    var s := s.(sentiment := mood.sentiment, language := mood.language);
    if ExitRequested(text) then
      Transition(s.(messages := s.messages + [Message(User, Free(text)), Message(Assistant, Fixed(Farewell))],
                    step := Completed), Rerun)
    else if s.step == Completed then
      Transition(s, Halt)
    else
      Dispatch(s.(messages := s.messages + [Message(User, Free(text))]), text, o)
  }

  /** The step handlers, run after the user message has been recorded. Steps without a
      handler (`GenerateQuestions`, `Report`, `Error`) only rerun. */
  function Dispatch(s: State, text: string, o: Oracle): Transition {
    var c := s.candidate;
    match s.step
    case Greeting =>
      Transition(s.(candidate := c.(name := Some(text)),
                    messages := s.messages + [Say(s, EmailPrompt(text), o)],
                    step := GetEmail), Rerun)
    case GetEmail =>
      Transition(s.(candidate := c.(email := Some(text)),
                    messages := s.messages + [Say(s, PhonePrompt, o)],
                    step := GetPhone), Rerun)
    case GetPhone =>
      Transition(s.(candidate := c.(phone := Some(text)),
                    messages := s.messages + [Say(s, ExperiencePrompt, o)],
                    step := GetExperience), Rerun)
    case GetExperience =>
      (match ParseExperience(text)
       case Some(years) =>
         Transition(s.(candidate := c.(experience := Some(years)),
                       messages := s.messages + [Say(s, RolePrompt, o)],
                       step := GetRole), Rerun)
       case None =>
         Transition(s.(messages := s.messages + [Say(s, ExperienceRetry, o)]), Rerun))
    case GetRole =>
      Transition(s.(candidate := c.(role := Some(text)),
                    messages := s.messages + [Say(s, LocationPrompt, o)],
                    step := GetLocation), Rerun)
    case GetLocation =>
      Transition(s.(candidate := c.(location := Some(text)),
                    messages := s.messages + [Say(s, TechStackPrompt, o)],
                    step := GetTechStack), Rerun)
    case GetTechStack =>
      Transition(s.(candidate := c.(techStack := SplitTechStack(text)),
                    messages := s.messages + [Say(s, GeneratingNotice, o)],
                    step := GenerateQuestions), Rerun)
    case Interview =>
      if s.currentQIdx >= |s.questions| then
        Transition(s, Crashed(IndexOutOfRange))
      else
        var question := s.questions[s.currentQIdx];
        (match o.evaluate(EvaluationRequest(c.name, question, text))
         case Some(score) =>
           var thanks := o.acknowledge(AcknowledgementRequest(c.name, s.language));
           Transition(s.(scores := s.scores + [score],
                         answers := s.answers + [text],
                         messages := s.messages + [Message(Assistant, Free(thanks))],
                         currentQIdx := s.currentQIdx + 1), Rerun)
         case None =>
           Transition(s.(messages := s.messages + [Say(s, EvaluationGlitch, o)],
                         scores := s.scores + [FallbackScore],
                         answers := s.answers + [text],
                         currentQIdx := s.currentQIdx + 1), Rerun))
    case _ =>
      Transition(s, Rerun)
  }

  /** A run without user input: the greeting, question generation, question presentation
      and the report, of which at most one applies. */
  function Auto(s: State, o: Oracle): Transition {
    var c := s.candidate;
    match s.step
    case Greeting =>
      if s.messages == [] then
        Transition(s.(messages := s.messages + [Say(s, Welcome, o)]), Rerun)
      else
        Transition(s, Idle)
    case GenerateQuestions =>
      (match c.experience
       case None => Transition(s, Crashed(MissingExperience))
       case Some(years) =>
         var request := QuestionRequest(c.name, c.role, s.language, c.techStack, Difficulty(years));
         match o.generate(request)
         case Success(qs) =>
           Transition(s.(questions := qs,
                         step := Interview,
                         messages := s.messages + [Say(s, QuestionsReady(NatToString(|qs|)), o)]), Rerun)
         case Failure(error) =>
           Transition(s.(messages := s.messages + [Say(s, GenerationFailed(error), o)],
                         step := Error), Idle))
    case Interview =>
      if s.currentQIdx < |s.questions| then
        var question := s.questions[s.currentQIdx];
        if s.messages == [] || Shown(s.messages[|s.messages| - 1].content) != question then
          Transition(s.(messages := s.messages + [Message(Assistant, Free(question))]), Rerun)
        else
          Transition(s, Idle)
      else
        Transition(s.(step := Report), Rerun)
    case Report =>
      if s.scores == [] then
        Transition(s, Crashed(DivisionByZero))
      else
        var closing := o.summarize(SummaryRequest(c.name, s.language, AverageScore(s.scores)));
        Transition(s.(messages := s.messages + [Message(Assistant, Free(closing))], step := Completed), Rerun)
    case _ =>
      Transition(s, Idle)
  }

  /** A whole script run. The greeting block comes before the chat input, so a fresh
      session shows the welcome and reruns whatever was typed; an empty input counts as
      none; otherwise a run with input ends inside the input handler, and a run without
      it goes on to the automatic blocks. */
  ghost function Script(s: State, input: Option<string>, o: Oracle): Transition {
    if s.step == Greeting && s.messages == [] then Auto(s, o)
    else if input.Some? && input.value != "" then Turn(s, input.value, o)
    else Auto(s, o)
  }

  // ---------------------------------------------------------------------------
  // The session invariant
  // ---------------------------------------------------------------------------

  /** The steps before the interview, in which no answer has been taken. */
  predicate BeforeInterview(step: Step) {
    Position(step) <= 7
  }

  /** The invariant every reachable session keeps: one score and one answer per question
      passed, never more questions passed than asked, none passed before the interview,
      the experience known once it has been asked for, and the report reached only
      after the last question. */
  predicate Wellformed(s: State) {
    && |s.scores| == s.currentQIdx
    && |s.answers| == s.currentQIdx
    && s.currentQIdx <= |s.questions|
    && (BeforeInterview(s.step) ==> s.currentQIdx == 0)
    && (4 <= Position(s.step) <= 7 && s.step != Error ==> s.candidate.experience.Some?)
    && (s.step == Report ==> s.currentQIdx == |s.questions|)
  }

  // ---------------------------------------------------------------------------
  // Sequences of runs
  // ---------------------------------------------------------------------------

  /** What can happen between two snapshots: a script run, with or without input, or
      the reset button. */
  datatype Event = ScriptRun(input: Option<string>, o: Oracle) | ResetPressed

  ghost function Apply(s: State, e: Event): State {
    match e
    case ScriptRun(input, o) => Script(s, input, o).state
    case ResetPressed => Initial()
  }

  ghost function Run(s: State, events: seq<Event>): State
    decreases |events|
  {
    if events == [] then s else Run(Apply(s, events[0]), events[1..])
  }
}
