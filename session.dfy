/** The Streamlit session state as one mutable object, and the script's blocks as
    methods that update it in place. Each method is proved to perform exactly the
    transition of the pure model in `Conversation`. */
module Sessions {
  import opened Wrappers
  import opened Text
  import opened ExitCheck
  import opened Intake
  import opened Conversation
  import opened Properties

  class Session {
    var step: Step
    var messages: seq<Message>
    var candidate: Candidate
    var questions: seq<string>
    var currentQIdx: nat
    var answers: seq<string>
    var scores: seq<Score>
    var sentiment: string
    var language: string

    /** The session state as a value. */
    function Snapshot(): State
      reads this
    {
      State(step, messages, candidate, questions, currentQIdx, answers, scores, sentiment, language)
    }

    /** The first run: every key is missing, so every key gets its default. */
    constructor ()
      ensures Snapshot() == Initial()
      ensures Wellformed(Snapshot())
    {
      messages := [];
      step := Greeting;
      candidate := EmptyCandidate;
      questions := [];
      currentQIdx := 0;
      answers := [];
      scores := [];
      sentiment := "Neutral";
      language := "English";
    }

    /** The reset button deletes every key; the rerun then sets every default again. */
    method Reset()
      modifies this
      ensures Snapshot() == Initial()
      ensures Wellformed(Snapshot())
    {
      messages := [];
      step := Greeting;
      candidate := EmptyCandidate;
      questions := [];
      currentQIdx := 0;
      answers := [];
      scores := [];
      sentiment := "Neutral";
      language := "English";
    }

    /** `add_message`: appends to the transcript and changes nothing else. */
    method AddMessage(role: Role, content: Content)
      modifies this`messages
      ensures messages == old(messages) + [Message(role, content)]
    {
      messages := messages + [Message(role, content)];
    }

    /** A run with input: mood analysis, the global exit check, the refusal after
        completion, then the step handler. */
    method SubmitTurn(text: string, o: Oracle) returns (outcome: Outcome)
      modifies this
      ensures Transition(Snapshot(), outcome) == Turn(old(Snapshot()), text, o)
    {
      var mood := o.analyze(text);
      sentiment, language := mood.sentiment, mood.language;
      var leaving := CheckExit(text);
      if leaving {
        AddMessage(User, Free(text));
        AddMessage(Assistant, Fixed(Farewell));
        step := Completed;
        return Rerun;
      }
      if step == Completed {
        return Halt;
      }
      AddMessage(User, Free(text));
      outcome := HandleStep(text, o);
    }

    /** The chain of step handlers, after the user message has been recorded. */
    method HandleStep(text: string, o: Oracle) returns (outcome: Outcome)
      modifies this
      ensures Transition(Snapshot(), outcome) == Dispatch(old(Snapshot()), text, o)
    {
      outcome := Rerun;
      match step
      case Greeting =>
        candidate := candidate.(name := Some(text));
        AddMessage(Assistant, Translate(EmailPrompt(text), language, o));
        step := GetEmail;
      case GetEmail =>
        candidate := candidate.(email := Some(text));
        AddMessage(Assistant, Translate(PhonePrompt, language, o));
        step := GetPhone;
      case GetPhone =>
        candidate := candidate.(phone := Some(text));
        AddMessage(Assistant, Translate(ExperiencePrompt, language, o));
        step := GetExperience;
      case GetExperience =>
        var parsed := ParseExperience(text);
        match parsed {
          case Some(years) =>
            candidate := candidate.(experience := Some(years));
            AddMessage(Assistant, Translate(RolePrompt, language, o));
            step := GetRole;
          case None =>
            AddMessage(Assistant, Translate(ExperienceRetry, language, o));
        }
      case GetRole =>
        candidate := candidate.(role := Some(text));
        AddMessage(Assistant, Translate(LocationPrompt, language, o));
        step := GetLocation;
      case GetLocation =>
        candidate := candidate.(location := Some(text));
        AddMessage(Assistant, Translate(TechStackPrompt, language, o));
        step := GetTechStack;
      case GetTechStack =>
        candidate := candidate.(techStack := SplitTechStack(text));
        AddMessage(Assistant, Translate(GeneratingNotice, language, o));
        step := GenerateQuestions;
      case Interview =>
        if currentQIdx >= |questions| {
          return Crashed(IndexOutOfRange);
        }
        var question := questions[currentQIdx];
        var evaluation := o.evaluate(EvaluationRequest(candidate.name, question, text));
        match evaluation {
          case Some(score) =>
            scores := scores + [score];
            answers := answers + [text];
            var thanks := o.acknowledge(AcknowledgementRequest(candidate.name, language));
            AddMessage(Assistant, Free(thanks));
            currentQIdx := currentQIdx + 1;
          case None =>
            AddMessage(Assistant, Translate(EvaluationGlitch, language, o));
            scores := scores + [FallbackScore];
            answers := answers + [text];
            currentQIdx := currentQIdx + 1;
        }
      case _ =>
    }

    /** The automatic blocks of a run without input: the greeting, question generation,
        question presentation and the report. */
    method AutoStep(o: Oracle) returns (outcome: Outcome)
      modifies this
      ensures Transition(Snapshot(), outcome) == Auto(old(Snapshot()), o)
    {
      outcome := Idle;
      match step
      case Greeting =>
        if messages == [] {
          AddMessage(Assistant, Translate(Welcome, language, o));
          outcome := Rerun;
        }
      case GenerateQuestions =>
        if candidate.experience.None? {
          return Crashed(MissingExperience);
        }
        var difficulty := Difficulty(candidate.experience.value);
        var request := QuestionRequest(candidate.name, candidate.role, language, candidate.techStack, difficulty);
        var generated := o.generate(request);
        match generated {
          case Success(qs) =>
            questions := qs;
            step := Interview;
            AddMessage(Assistant, Translate(QuestionsReady(NatToString(|questions|)), language, o));
            outcome := Rerun;
          case Failure(error) =>
            AddMessage(Assistant, Translate(GenerationFailed(error), language, o));
            step := Error;
        }
      case Interview =>
        if currentQIdx < |questions| {
          if messages == [] || Shown(messages[|messages| - 1].content) != questions[currentQIdx] {
            AddMessage(Assistant, Free(questions[currentQIdx]));
            outcome := Rerun;
          }
        } else {
          step := Report;
          outcome := Rerun;
        }
      case Report =>
        if scores == [] {
          return Crashed(DivisionByZero);
        }
        var average := AverageScore(scores);
        var closing := o.summarize(SummaryRequest(candidate.name, language, average));
        AddMessage(Assistant, Free(closing));
        step := Completed;
        outcome := Rerun;
      case _ =>
    }

    /** One whole script run: the greeting block, then the input handler for non-empty
        input, or the automatic blocks without it. */
    method RunScript(input: Option<string>, o: Oracle) returns (outcome: Outcome)
      modifies this
      ensures Transition(Snapshot(), outcome) == Script(old(Snapshot()), input, o)
      ensures Wellformed(old(Snapshot())) ==> Wellformed(Snapshot())
    {
      ghost var before := Snapshot();
      if Wellformed(before) {
        ApplyKeepsWellformed(before, ScriptRun(input, o));
      }
      if step == Greeting && messages == [] {
        outcome := AutoStep(o);
      } else if input.Some? && input.value != "" {
        outcome := SubmitTurn(input.value, o);
      } else {
        outcome := AutoStep(o);
      }
    }
  }
}
