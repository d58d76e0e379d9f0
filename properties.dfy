/** What the conversation state machine guarantees, proved about `Conversation.Turn`,
    `Conversation.Auto` and sequences of runs. */
module Properties {
  import opened Wrappers
  import opened Text
  import opened ExitCheck
  import opened Intake
  import opened Conversation

  /** Everything outside the transcript, the step and the mood. */
  predicate SameRecords(a: State, b: State) {
    a.candidate == b.candidate && a.questions == b.questions && a.currentQIdx == b.currentQIdx
    && a.answers == b.answers && a.scores == b.scores
  }

  // ---------------------------------------------------------------------------
  // The exit check and the end of the conversation
  // ---------------------------------------------------------------------------

  /** An exit turn, from any step and even after completion, records the user message and
      the fixed farewell, ends the conversation and touches nothing else. */
  lemma ExitPreemptsEveryStep(s: State, text: string, o: Oracle)
    requires ExitRequested(text)
    ensures var t := Turn(s, text, o);
      && t.outcome == Rerun
      && t.state.step == Completed
      && t.state.messages == s.messages + [Message(User, Free(text)), Message(Assistant, Fixed(Farewell))]
      && SameRecords(t.state, s)
      && t.state.sentiment == o.analyze(text).sentiment
      && t.state.language == o.analyze(text).language
  {
  }

  /** After completion, a turn that is not an exit stops the run: nothing is recorded and
      only the mood is overwritten. */
  lemma CompletedRefusesInput(s: State, text: string, o: Oracle)
    requires s.step == Completed && !ExitRequested(text)
    ensures var t := Turn(s, text, o);
      && t.outcome == Halt
      && t.state == s.(sentiment := o.analyze(text).sentiment, language := o.analyze(text).language)
  {
  }

  /** One event leaves a completed session completed, its records intact and its
      transcript extended (unless it is the reset). */
  lemma CompletedStaysCompleted(s: State, e: Event)
    requires s.step == Completed && !e.ResetPressed?
    ensures var r := Apply(s, e);
      r.step == Completed && SameRecords(r, s)
      && |r.messages| >= |s.messages| && r.messages[..|s.messages|] == s.messages
  {
    var input := e.input;
    if input.Some? && input.value != "" && !ExitRequested(input.value) {
      CompletedRefusesInput(s, input.value, e.o);
    }
  }

  /** Nothing but the reset leaves `Completed`: no later run collects a profile field,
      asks a question or records an answer. */
  lemma {:induction false} OnlyResetLeavesCompleted(s: State, events: seq<Event>)
    requires s.step == Completed
    requires forall k :: 0 <= k < |events| ==> !events[k].ResetPressed?
    ensures var r := Run(s, events);
      r.step == Completed && SameRecords(r, s)
      && |r.messages| >= |s.messages| && r.messages[..|s.messages|] == s.messages
    decreases |events|
  {
    if events != [] {
      var s1 := Apply(s, events[0]);
      CompletedStaysCompleted(s, events[0]);
      OnlyResetLeavesCompleted(s1, events[1..]);
      var r := Run(s1, events[1..]);
      assert r.messages[..|s.messages|] == r.messages[..|s1.messages|][..|s.messages|];
    }
  }

  // ---------------------------------------------------------------------------
  // Profile collection
  // ---------------------------------------------------------------------------

  predicate IsVerbatimStep(step: Step) {
    step == Greeting || step == GetEmail || step == GetPhone || step == GetRole || step == GetLocation
  }

  /** Name, email, phone, role and location: the answer is stored as typed in its field,
      the user message and one assistant message are recorded, the step advances by one
      position, the mood is the analysis of the answer, and nothing else changes. */
  lemma VerbatimFieldTurn(s: State, text: string, o: Oracle)
    requires IsVerbatimStep(s.step) && !ExitRequested(text)
    ensures var t := Turn(s, text, o); var c := s.candidate;
      && t.outcome == Rerun
      && t.state.step == Next(s.step) && Position(t.state.step) == Position(s.step) + 1
      && |t.state.messages| == |s.messages| + 2
      && t.state.messages[..|s.messages| + 1] == s.messages + [Message(User, Free(text))]
      && t.state.messages[|s.messages| + 1].role == Assistant
      && (s.step == Greeting ==> t.state.candidate == c.(name := Some(text)))
      && (s.step == GetEmail ==> t.state.candidate == c.(email := Some(text)))
      && (s.step == GetPhone ==> t.state.candidate == c.(phone := Some(text)))
      && (s.step == GetRole ==> t.state.candidate == c.(role := Some(text)))
      && (s.step == GetLocation ==> t.state.candidate == c.(location := Some(text)))
      && t.state.sentiment == o.analyze(text).sentiment && t.state.language == o.analyze(text).language
      && SameRecords(t.state.(candidate := s.candidate), s)
  {
  }

  /** Experience: the step advances to the role question exactly when `int()` reads the
      answer's digits (at least one, at most the cap), storing the number they spell and
      recording the role prompt; otherwise the step and the profile stay as they were and
      the retry prompt is recorded. The mood is the analysis of the answer, and the
      questions, answers and scores are untouched. */
  lemma ExperienceTurn(s: State, text: string, o: Oracle)
    requires s.step == GetExperience && !ExitRequested(text)
    ensures var t := Turn(s, text, o);
      && t.outcome == Rerun
      && (t.state.step == GetRole <==> ReadsAsNumber(text))
      && (ReadsAsNumber(text) ==>
            && t.state.candidate == s.candidate.(experience := ParseExperience(text))
            && t.state.messages == s.messages + [Message(User, Free(text)), Say(t.state, RolePrompt, o)])
      && (!ReadsAsNumber(text) ==>
            && t.state.step == GetExperience
            && t.state.candidate == s.candidate
            && t.state.messages == s.messages + [Message(User, Free(text)), Say(t.state, ExperienceRetry, o)])
      && t.state.sentiment == o.analyze(text).sentiment && t.state.language == o.analyze(text).language
      && SameRecords(t.state.(candidate := s.candidate), s)
  {
  }

  /** Tech stack: the split list is stored and the conversation moves on to question
      generation. */
  lemma TechStackTurn(s: State, text: string, o: Oracle)
    requires s.step == GetTechStack && !ExitRequested(text)
    ensures var t := Turn(s, text, o);
      && t.outcome == Rerun
      && t.state.step == GenerateQuestions
      && t.state.candidate == s.candidate.(techStack := SplitTechStack(text))
      && t.state.messages == s.messages + [Message(User, Free(text)), Say(t.state, GeneratingNotice, o)]
      && t.state.sentiment == o.analyze(text).sentiment && t.state.language == o.analyze(text).language
      && SameRecords(t.state.(candidate := s.candidate), s)
  {
  }

  /** Steps without a handler (`GenerateQuestions`, `Report`, and `Error`, which the
      failure message asks to leave by typing 'restart') only record the user message. */
  lemma UnhandledStepOnlyRecordsInput(s: State, text: string, o: Oracle)
    requires s.step in {GenerateQuestions, Report, Error} && !ExitRequested(text)
    ensures var t := Turn(s, text, o);
      && t.outcome == Rerun
      && t.state.step == s.step
      && t.state.messages == s.messages + [Message(User, Free(text))]
      && SameRecords(t.state, s)
  {
  }

  // ---------------------------------------------------------------------------
  // Question generation, interview and report
  // ---------------------------------------------------------------------------

  /** Generation asks for the tier that matches the experience; on success the questions
      are stored, the interview begins and one message is recorded; on failure one error
      message is recorded and the session is left in `Error`. */
  lemma GenerationRun(s: State, o: Oracle, years: nat)
    requires s.step == GenerateQuestions && s.candidate.experience == Some(years)
    ensures var c := s.candidate; var t := Auto(s, o);
      var request := QuestionRequest(c.name, c.role, s.language, c.techStack, Difficulty(years));
      match o.generate(request)
      case Success(qs) =>
        && t.outcome == Rerun && t.state.step == Interview && t.state.questions == qs
        && t.state.messages == s.messages + [Say(s, QuestionsReady(NatToString(|qs|)), o)]
        && t.state.candidate == c && t.state.currentQIdx == s.currentQIdx
      case Failure(error) =>
        && t.outcome == Idle && t.state.step == Error
        && t.state.messages == s.messages + [Say(s, GenerationFailed(error), o)]
        && SameRecords(t.state, s)
  {
  }

  /** An accepted answer adds exactly one score and one answer and moves to the next
      question, with the evaluator's score or, when evaluation fails, the fallback 1/1/1. */
  lemma InterviewAnswer(s: State, text: string, o: Oracle)
    requires s.step == Interview && s.currentQIdx < |s.questions| && !ExitRequested(text)
    ensures var t := Turn(s, text, o);
      var request := EvaluationRequest(s.candidate.name, s.questions[s.currentQIdx], text);
      && t.outcome == Rerun && t.state.step == Interview
      && t.state.currentQIdx == s.currentQIdx + 1
      && t.state.answers == s.answers + [text]
      && t.state.scores == s.scores + [match o.evaluate(request) case Some(score) => score case None => FallbackScore]
      && |t.state.messages| == |s.messages| + 2
      && t.state.messages[|s.messages|] == Message(User, Free(text))
      && t.state.candidate == s.candidate && t.state.questions == s.questions
  {
  }

  /** Question presentation shows the current question unless the transcript already
      ends with it; once every question is passed the report follows. */
  lemma PresentationRun(s: State, o: Oracle)
    requires s.step == Interview
    ensures var t := Auto(s, o); var i := s.currentQIdx;
      && ((i < |s.questions| && (s.messages == [] || Shown(s.messages[|s.messages| - 1].content) != s.questions[i]))
          ==> t == Transition(s.(messages := s.messages + [Message(Assistant, Free(s.questions[i]))]), Rerun))
      && ((i < |s.questions| && s.messages != [] && Shown(s.messages[|s.messages| - 1].content) == s.questions[i])
          ==> t == Transition(s, Idle))
      && (i >= |s.questions| ==> t == Transition(s.(step := Report), Rerun))
  {
  }

  /** Presenting is idempotent: a second run without input shows nothing more. */
  lemma PresentationIsIdempotent(s: State, o1: Oracle, o2: Oracle)
    requires s.step == Interview && s.currentQIdx < |s.questions|
    ensures var t := Auto(s, o1).state; Auto(t, o2) == Transition(t, Idle)
  {
    var t := Auto(s, o1).state;
    assert t.step == Interview && t.questions == s.questions && t.currentQIdx == s.currentQIdx;
    assert t.messages != [] && Shown(t.messages[|t.messages| - 1].content) == s.questions[s.currentQIdx];
  }

  /** The greeting is shown once, on an empty transcript: it is the only change the run
      makes, a run on a non-empty transcript changes nothing, and neither does the next. */
  lemma GreetingIsShownOnce(s: State, o1: Oracle, o2: Oracle)
    requires s.step == Greeting
    ensures var t := Auto(s, o1).state;
      && (s.messages == [] ==> Auto(s, o1) == Transition(s.(messages := [Say(s, Welcome, o1)]), Rerun))
      && (s.messages != [] ==> Auto(s, o1) == Transition(s, Idle))
      && Auto(t, o2) == Transition(t, Idle)
  {
    var t := Auto(s, o1).state;
    assert t.step == Greeting && t.messages != [];
  }

  /** The report records one closing message built from the average score and completes
      the conversation; with no scores the division fails and nothing changes. */
  lemma ReportRun(s: State, o: Oracle)
    requires s.step == Report
    ensures var t := Auto(s, o);
      && (s.scores == [] ==> t == Transition(s, Crashed(DivisionByZero)))
      && (s.scores != [] ==>
            && t.outcome == Rerun && t.state.step == Completed
            && t.state.messages == s.messages
                 + [Message(Assistant, Free(o.summarize(SummaryRequest(s.candidate.name, s.language, AverageScore(s.scores)))))]
            && SameRecords(t.state, s))
  {
  }

  // ---------------------------------------------------------------------------
  // The session invariant
  // ---------------------------------------------------------------------------

  lemma InitialIsWellformed()
    ensures Wellformed(Initial())
  {
  }

  /** Every run with user input keeps the invariant. */
  lemma TurnKeepsWellformed(s: State, text: string, o: Oracle)
    requires Wellformed(s)
    ensures Wellformed(Turn(s, text, o).state)
  {
    var mood := o.analyze(text);
    var s' := s.(sentiment := mood.sentiment, language := mood.language);
    var s'' := s'.(messages := s'.messages + [Message(User, Free(text))]);
    assert Wellformed(s') && Wellformed(s'');
    if !ExitRequested(text) && s'.step != Completed {
      assert Turn(s, text, o) == Dispatch(s'', text, o);
      DispatchKeepsWellformed(s'', text, o);
    }
  }

  /** Every step handler keeps the invariant. */
  lemma DispatchKeepsWellformed(s: State, text: string, o: Oracle)
    requires Wellformed(s)
    ensures Wellformed(Dispatch(s, text, o).state)
  {
  }

  /** Every run without user input keeps the invariant. */
  lemma AutoKeepsWellformed(s: State, o: Oracle)
    requires Wellformed(s)
    ensures Wellformed(Auto(s, o).state)
  {
  }

  /** One event of any kind keeps the invariant. */
  lemma ApplyKeepsWellformed(s: State, e: Event)
    requires Wellformed(s)
    ensures Wellformed(Apply(s, e))
  {
    match e
    case ScriptRun(input, o) =>
      AutoKeepsWellformed(s, o);
      if input.Some? {
        TurnKeepsWellformed(s, input.value, o);
      }
    case ResetPressed => InitialIsWellformed();
  }

  /** The invariant holds after any sequence of runs and resets. */
  lemma {:induction false} RunKeepsWellformed(s: State, events: seq<Event>)
    requires Wellformed(s)
    ensures Wellformed(Run(s, events))
    decreases |events|
  {
    if events != [] {
      ApplyKeepsWellformed(s, events[0]);
      RunKeepsWellformed(Apply(s, events[0]), events[1..]);
    }
  }

  /** In a well-formed session the only crashes left are an answer typed after the last
      question (before the report has run) and a report over an empty question list. */
  lemma CrashesOfWellformedSessions(s: State, text: string, o: Oracle)
    requires Wellformed(s)
    ensures Turn(s, text, o).outcome.Crashed? ==>
      s.step == Interview && s.currentQIdx == |s.questions|
    ensures Auto(s, o).outcome.Crashed? <==> s.step == Report && s.questions == []
  {
  }

  // ---------------------------------------------------------------------------
  // Scores
  // ---------------------------------------------------------------------------

  /** A score on the 1-5 scale the evaluator is asked to use. */
  predicate OnScale(score: Score) {
    1 <= score.clarity <= 5 && 1 <= score.technicalAccuracy <= 5 && 1 <= score.depth <= 5
  }

  predicate ScoresOnScale(s: State) {
    forall k :: 0 <= k < |s.scores| ==> OnScale(s.scores[k])
  }

  /** An evaluator that keeps to the scale it is asked for. */
  ghost predicate EvaluatorOnScale(o: Oracle) {
    forall r :: o.evaluate(r).Some? ==> OnScale(o.evaluate(r).value)
  }

  ghost predicate EventOnScale(e: Event) {
    e.ScriptRun? ==> EvaluatorOnScale(e.o)
  }

  /** A run keeps every recorded score on the scale when the evaluator does: the
      fallback 1/1/1 is on it. */
  lemma ScriptKeepsScoresOnScale(s: State, input: Option<string>, o: Oracle)
    requires ScoresOnScale(s) && EvaluatorOnScale(o)
    ensures ScoresOnScale(Script(s, input, o).state)
  {
  }

  lemma ApplyKeepsScoresOnScale(s: State, e: Event)
    requires ScoresOnScale(s) && EventOnScale(e)
    ensures ScoresOnScale(Apply(s, e))
  {
    if e.ScriptRun? {
      ScriptKeepsScoresOnScale(s, e.input, e.o);
    }
  }

  lemma {:induction false} RunKeepsScoresOnScale(s: State, events: seq<Event>)
    requires ScoresOnScale(s)
    requires forall k :: 0 <= k < |events| ==> EventOnScale(events[k])
    ensures ScoresOnScale(Run(s, events))
    decreases |events|
  {
    if events != [] {
      ApplyKeepsScoresOnScale(s, events[0]);
      RunKeepsScoresOnScale(Apply(s, events[0]), events[1..]);
    }
  }

  /** With evaluators that keep to the scale, the average the report announces lies
      between 1 and 5, from a fresh session or any other whose scores are on the scale. */
  lemma ReportedAverageOnScale(s: State, events: seq<Event>)
    requires ScoresOnScale(s)
    requires forall k :: 0 <= k < |events| ==> EventOnScale(events[k])
    ensures Run(s, events).scores != [] ==> 1.0 <= AverageScore(Run(s, events).scores) <= 5.0
  {
    RunKeepsScoresOnScale(s, events);
    var r := Run(s, events);
    if r.scores != [] {
      AverageOnScale(r.scores);
    }
  }

  // ---------------------------------------------------------------------------
  // Progress
  // ---------------------------------------------------------------------------

  /** How many more runs without input can still rerun the script. */
  function PendingRuns(s: State): nat {
    match s.step
    case Greeting => if s.messages == [] then 1 else 0
    case GenerateQuestions => 3
    case Interview =>
      if s.currentQIdx >= |s.questions| then 2
      else if s.messages == [] || Shown(s.messages[|s.messages| - 1].content) != s.questions[s.currentQIdx] then 1
      else 0
    case Report => 1
    case _ => 0
  }

  /** Every run without input that asks for another run makes progress, so the chain of
      reruns without input ends after at most three of them. */
  lemma AutoMakesProgress(s: State, o: Oracle)
    ensures Auto(s, o).outcome == Rerun ==> PendingRuns(Auto(s, o).state) < PendingRuns(s)
    ensures Auto(s, o).outcome == Idle ==> PendingRuns(Auto(s, o).state) == 0
  {
  }

  /** The step never moves backwards, except by the reset. */
  lemma StepNeverMovesBack(s: State, e: Event)
    requires !e.ResetPressed?
    ensures Position(Apply(s, e).step) >= Position(s.step)
  {
    var input, o := e.input, e.o;
    AutoNeverMovesBack(s, o);
    if input.Some? {
      TurnNeverMovesBack(s, input.value, o);
    }
  }

  /** No run with user input moves the step backwards. */
  lemma TurnNeverMovesBack(s: State, text: string, o: Oracle)
    ensures Position(Turn(s, text, o).state.step) >= Position(s.step)
  {
  }

  /** No run without user input moves the step backwards. */
  lemma AutoNeverMovesBack(s: State, o: Oracle)
    ensures Position(Auto(s, o).state.step) >= Position(s.step)
  {
  }

  lemma {:induction false} RunNeverMovesBack(s: State, events: seq<Event>)
    requires forall k :: 0 <= k < |events| ==> !events[k].ResetPressed?
    ensures Position(Run(s, events).step) >= Position(s.step)
    decreases |events|
  {
    if events != [] {
      StepNeverMovesBack(s, events[0]);
      RunNeverMovesBack(Apply(s, events[0]), events[1..]);
    }
  }
}
