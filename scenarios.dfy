/** Worked conversations and concrete inputs, checked against the model. */
module Scenarios {
  import opened Wrappers
  import opened Text
  import opened ExitCheck
  import opened Intake
  import opened Conversation
  import opened Properties

  // ---------------------------------------------------------------------------
  // Concrete inputs to the helpers
  // ---------------------------------------------------------------------------

  /** A digit-free scan from position `i` on, which evaluates on literals. */
  predicate NoDigitFrom(s: string, i: nat)
    decreases |s| - i
  {
    i >= |s| || (!IsDigit(s[i]) && NoDigitFrom(s, i + 1))
  }

  lemma {:induction false} NoDigitFromMeansNone(s: string, i: nat)
    requires NoDigitFrom(s, i)
    ensures forall j :: i <= j < |s| ==> !IsDigit(s[j])
    decreases |s| - i
  {
    if i < |s| {
      NoDigitFromMeansNone(s, i + 1);
    }
  }

  lemma NoDigitIn(s: string)
    requires NoDigitFrom(s, 0)
    ensures !HasDigit(s)
  {
    NoDigitFromMeansNone(s, 0);
  }

  /** "I have 5 years" is five years of experience. */
  lemma FiveYears()
    ensures ParseExperience("I have 5 years") == Some(5)
  {
    NoDigitIn("I have ");
    NoDigitIn(" years");
    ParseSurroundedNumber("I have ", 5, " years");
    assert NatToString(5) == "5";
    assert "I have " + "5" + " years" == "I have 5 years";
  }

  /** Two one-digit numbers in one answer are read as a two-digit number. */
  lemma ParseTwoSingleDigits(m: nat, middle: string, n: nat, after: string)
    requires m < 10 && n < 10 && !HasDigit(middle) && !HasDigit(after)
    ensures ParseExperience(NatToString(m) + middle + NatToString(n) + after) == Some(10 * m + n)
  {
    var none: string := [];
    assert none + NatToString(m) == NatToString(m) && !HasDigit(none);
    OneDigit(m);
    OneDigit(n);
    ParseConcatenatesNumbers(none, m, middle, n, after);
    assert Pow10(1) == 10;
  }

  lemma OneDigit(m: nat)
    requires m < 10
    ensures |NatToString(m)| == 1
  {
  }

  lemma OneToTwoYearsText()
    ensures "1 to 2 years" == NatToString(1) + " to " + NatToString(2) + " years"
  {
    assert NatToString(1) == "1" && NatToString(2) == "2";
  }

  lemma OneToTwoYearsParts()
    ensures ParseExperience(NatToString(1) + " to " + NatToString(2) + " years") == Some(12)
  {
    NoDigitIn(" to ");
    NoDigitIn(" years");
    ParseTwoSingleDigits(1, " to ", 2, " years");
  }

  /** "1 to 2 years" runs the digits together: twelve years. */
  lemma OneToTwoYearsIsTwelve()
    ensures ParseExperience("1 to 2 years") == Some(12)
  {
    OneToTwoYearsText();
    OneToTwoYearsParts();
  }

  /** "five" holds no digit, so the experience question is asked again. */
  lemma SpelledOutYearsAreRejected()
    ensures ParseExperience("five") == None
  {
    NoDigitIn("five");
  }

  /** `a,b,c` splits at its two commas. */
  lemma SplitOfThree(a: string, b: string, c: string)
    requires ',' !in a && ',' !in b && ',' !in c
    ensures Split(a + "," + b + "," + c, ',') == [a, b, c]
  {
    var ps := [a, b, c];
    assert ps[1..] == [b, c] && [b, c][1..] == [c];
    assert Join([c], ",") == c;
    assert Join([b, c], ",") == b + "," + c;
    assert Join(ps, ",") == a + "," + (b + "," + c);
    assert a + "," + (b + "," + c) == a + "," + b + "," + c;
    SplitJoin(ps, ',');
  }

  /** `a,b` splits at its comma. */
  lemma SplitOfTwo(a: string, b: string)
    requires ',' !in a && ',' !in b
    ensures Split(a + "," + b, ',') == [a, b]
  {
    var ps := [a, b];
    assert ps[1..] == [b];
    SplitJoin(ps, ',');
  }

  /** The tech stack of three comma-separated pieces is their stripped forms. */
  lemma StackOfThree(a: string, b: string, c: string, x: string, y: string, z: string)
    requires ',' !in a && ',' !in b && ',' !in c
    requires Strip(a) == x && Strip(b) == y && Strip(c) == z
    ensures SplitTechStack(a + "," + b + "," + c) == [x, y, z]
  {
    SplitOfThree(a, b, c);
  }

  /** The tech stack of two comma-separated pieces is their stripped forms. */
  lemma StackOfTwo(a: string, b: string, x: string, y: string)
    requires ',' !in a && ',' !in b
    requires Strip(a) == x && Strip(b) == y
    ensures SplitTechStack(a + "," + b) == [x, y]
  {
    SplitOfTwo(a, b);
  }

  /** A piece made of a stripped word and whitespace around it strips to the word. */
  lemma StripPiece(a: string, x: string, b: string)
    requires AllSpace(a) && AllSpace(b) && IsStripped(x)
    ensures Strip(a + x + b) == x
  {
    StripOfPadded(a, x, b);
  }

  /** A stripped piece is kept as it is. */
  lemma StripBare(x: string)
    requires IsStripped(x)
    ensures Strip(x) == x
  {
    assert "" + x + "" == x;
    StripPiece("", x, "");
  }

  /** A piece after one space strips to the word. */
  lemma StripLeading(x: string)
    requires IsStripped(x)
    ensures Strip(" " + x) == x
  {
    assert " " + x + "" == " " + x;
    assert AllSpace(" ");
    StripPiece(" ", x, "");
  }

  /** A piece between two spaces strips to the word. */
  lemma StripBetween(x: string)
    requires IsStripped(x)
    ensures Strip(" " + x + " ") == x
  {
    assert AllSpace(" ");
    StripPiece(" ", x, " ");
  }

  /** Spaces around a comma-free word add no comma. */
  lemma SpacedHasNoComma(x: string)
    requires ',' !in x
    ensures ',' !in " " + x && ',' !in " " + x + " "
  {
  }

  lemma ExampleStackText()
    ensures "Python, Go , Rust" == "Python" + "," + (" " + "Go" + " ") + "," + (" " + "Rust")
  {
  }

  lemma ExampleStackParts()
    ensures SplitTechStack("Python" + "," + (" " + "Go" + " ") + "," + (" " + "Rust")) == ["Python", "Go", "Rust"]
  {
    var a, b, c := "Python", " " + "Go" + " ", " " + "Rust";
    StripBare("Python");
    StripBetween("Go");
    StripLeading("Rust");
    SpacedHasNoComma("Go");
    SpacedHasNoComma("Rust");
    StackOfThree(a, b, c, "Python", "Go", "Rust");
  }

  /** Entries are split at commas and trimmed. */
  lemma TechStackExample()
    ensures SplitTechStack("Python, Go , Rust") == ["Python", "Go", "Rust"]
  {
    ExampleStackText();
    ExampleStackParts();
  }

  lemma ShortStackText()
    ensures "Go, Docker" == "Go" + "," + (" " + "Docker")
  {
  }

  lemma ShortStackParts()
    ensures SplitTechStack("Go" + "," + (" " + "Docker")) == ["Go", "Docker"]
  {
    StripBare("Go");
    StripLeading("Docker");
    SpacedHasNoComma("Docker");
    StackOfTwo("Go", " " + "Docker", "Go", "Docker");
  }

  /** The stack of the walk-through below. */
  lemma ShortStackExample()
    ensures SplitTechStack("Go, Docker") == ["Go", "Docker"]
  {
    ShortStackText();
    ShortStackParts();
  }

  // ---------------------------------------------------------------------------
  // Concrete inputs to the exit check
  // ---------------------------------------------------------------------------

  /** No character of `text` lower-cases to any of `cs`. */
  predicate LacksAll(text: string, cs: seq<char>) {
    forall i :: 0 <= i < |text| ==> LowerChar(text[i]) !in cs
  }

  lemma LacksOne(text: string, cs: seq<char>, c: char)
    requires LacksAll(text, cs) && c in cs
    ensures Lacks(text, c)
  {
  }

  /** A text that lacks, in both cases, one letter of each keyword and one of the end
      phrase is not an exit. */
  lemma LacksExitLetters(text: string, a: char, b: char, c: char, d: char, e: char, f: char, g: char)
    requires a in "exit" && b in "quit" && c in "stop" && d in "bye"
    requires e in "terminate" && f in "goodbye" && g in EndPhrase
    requires LacksAll(text, [a, b, c, d, e, f, g])
    ensures !ExitRequested(text)
  {
    var cs := [a, b, c, d, e, f, g];
    LacksOne(text, cs, a);
    LacksOne(text, cs, b);
    LacksOne(text, cs, c);
    LacksOne(text, cs, d);
    LacksOne(text, cs, e);
    LacksOne(text, cs, f);
    LacksOne(text, cs, g);
    MissingLetter(text, "exit", a);
    MissingLetter(text, "quit", b);
    MissingLetter(text, "stop", c);
    MissingLetter(text, "bye", d);
    MissingLetter(text, "terminate", e);
    MissingLetter(text, "goodbye", f);
    MissingLetter(text, EndPhrase, g);
    NoKeywordIsNoExit(text);
  }

  lemma AdaIsNotAnExit() ensures !ExitRequested("Ada") {
    LacksExitLetters("Ada", 'x', 'q', 's', 'b', 't', 'g', 'c');
  }

  lemma EmailIsNotAnExit() ensures !ExitRequested("a@b.com") {
    LacksExitLetters("a@b.com", 'x', 'q', 's', 'y', 't', 'g', 'n');
  }

  lemma PhoneIsNotAnExit() ensures !ExitRequested("555") {
    LacksExitLetters("555", 'x', 'q', 's', 'b', 't', 'g', 'c');
  }

  lemma YearsAreNotAnExit() ensures !ExitRequested("I have 5 years") {
    LacksExitLetters("I have 5 years", 'x', 'q', 't', 'b', 't', 'g', 'c');
  }

  lemma RoleIsNotAnExit() ensures !ExitRequested("Backend Engineer") {
    LacksExitLetters("Backend Engineer", 'x', 'q', 's', 'y', 't', 'o', 'v');
  }

  lemma PlaceIsNotAnExit() ensures !ExitRequested("Remote") {
    LacksExitLetters("Remote", 'x', 'q', 's', 'b', 'n', 'g', 'c');
  }

  lemma StackIsNotAnExit() ensures !ExitRequested("Go, Docker") {
    LacksExitLetters("Go, Docker", 'x', 'q', 's', 'b', 't', 'y', 'n');
  }

  /** "stop" alone is an exit. */
  lemma StopIsAnExit()
    ensures ExitRequested("stop")
  {
    var t := Lower("stop");
    assert t[0] == 's' && t[1] == 't' && t[2] == 'o' && t[3] == 'p';
    assert WholeWordAt(t, "stop", 0);
    WholeKeywordIsAnExit("stop", 2, 0);
  }

  /** "bus stop" in a longer answer is an exit too: the check does not look at meaning. */
  lemma BusStopIsAnExit()
    ensures ExitRequested("Near the bus stop")
  {
    var t := Lower("Near the bus stop");
    assert t[12] == ' ' && t[13] == 's' && t[14] == 't' && t[15] == 'o' && t[16] == 'p';
    assert WholeWordAt(t, "stop", 13);
    WholeKeywordIsAnExit("Near the bus stop", 2, 13);
  }

  // ---------------------------------------------------------------------------
  // Whole conversations
  // ---------------------------------------------------------------------------

  /** The profile the walk-through collects. */
  const AdaProfile: Candidate :=
    Candidate(Some("Ada"), Some("a@b.com"), Some("555"), Some(5), Some("Backend Engineer"), Some("Remote"), ["Go", "Docker"])

  /** Where a session stands in the walk-through: its step, its profile and the length
      of its transcript, with no question asked yet. */
  predicate StandsAt(s: State, step: Step, c: Candidate, count: nat) {
    s.step == step && s.candidate == c && |s.messages| == count && s.questions == [] && s.currentQIdx == 0
  }

  /** One profile answer that is not an exit, in a session past the welcome. */
  lemma AnswerStep(s: State, text: string, o: Oracle, c: Candidate)
    requires s.messages != [] && text != "" && !ExitRequested(text)
    requires IsVerbatimStep(s.step) && StandsAt(s, s.step, s.candidate, |s.messages|)
    requires c == match s.step
      case Greeting => s.candidate.(name := Some(text))
      case GetEmail => s.candidate.(email := Some(text))
      case GetPhone => s.candidate.(phone := Some(text))
      case GetRole => s.candidate.(role := Some(text))
      case _ => s.candidate.(location := Some(text))
    ensures StandsAt(Script(s, Some(text), o).state, Next(s.step), c, |s.messages| + 2)
  {
    VerbatimFieldTurn(s, text, o);
  }

  lemma WelcomeStep(o: Oracle)
    ensures StandsAt(Script(Initial(), None, o).state, Greeting, EmptyCandidate, 1)
  {
    var t := Script(Initial(), None, o).state;
    assert t.step == Greeting;
    assert t.candidate == EmptyCandidate;
    assert |t.messages| == 1;
    assert t.questions == [];
    assert t.currentQIdx == 0;
  }

  lemma ExperienceStep(s: State, text: string, o: Oracle, years: nat)
    requires StandsAt(s, GetExperience, s.candidate, |s.messages|) && s.messages != []
    requires text != "" && !ExitRequested(text) && ParseExperience(text) == Some(years)
    ensures StandsAt(Script(s, Some(text), o).state, GetRole,
                     s.candidate.(experience := Some(years)), |s.messages| + 2)
  {
    ExperienceTurn(s, text, o);
  }

  lemma StackStep(s: State, text: string, o: Oracle, stack: seq<string>)
    requires StandsAt(s, GetTechStack, s.candidate, |s.messages|) && s.messages != []
    requires text != "" && !ExitRequested(text) && SplitTechStack(text) == stack
    ensures StandsAt(Script(s, Some(text), o).state, GenerateQuestions,
                     s.candidate.(techStack := stack), |s.messages| + 2)
  {
    TechStackTurn(s, text, o);
  }

  /** The session after the welcome and one run for each of the seven profile answers. */
  ghost function AfterProfile(o: Oracle, name: string, email: string, phone: string, years: string,
                              role: string, place: string, stack: string): State
  {
    var s0 := Script(Initial(), None, o).state;
    var s1 := Script(s0, Some(name), o).state;
    var s2 := Script(s1, Some(email), o).state;
    var s3 := Script(s2, Some(phone), o).state;
    var s4 := Script(s3, Some(years), o).state;
    var s5 := Script(s4, Some(role), o).state;
    var s6 := Script(s5, Some(place), o).state;
    Script(s6, Some(stack), o).state
  }

  /** A first visit: the welcome, then seven non-empty answers that are not exits, the
      fourth of which holds a number, collect the whole profile as typed and reach
      question generation, whatever the language model replies. */
  lemma ProfileCollection(o: Oracle, name: string, email: string, phone: string, years: string,
                          role: string, place: string, stack: string, n: nat)
    requires name != "" && email != "" && phone != "" && years != ""
    requires role != "" && place != "" && stack != ""
    requires !ExitRequested(name) && !ExitRequested(email) && !ExitRequested(phone)
    requires !ExitRequested(years) && !ExitRequested(role) && !ExitRequested(place)
    requires !ExitRequested(stack)
    requires ParseExperience(years) == Some(n)
    ensures StandsAt(AfterProfile(o, name, email, phone, years, role, place, stack), GenerateQuestions,
                     Candidate(Some(name), Some(email), Some(phone), Some(n), Some(role), Some(place),
                               SplitTechStack(stack)), 15)
  {
    var c := EmptyCandidate;
    var s0 := Script(Initial(), None, o).state;
    WelcomeStep(o);
    var s1 := Script(s0, Some(name), o).state;
    AnswerStep(s0, name, o, c.(name := Some(name)));
    c := c.(name := Some(name));
    var s2 := Script(s1, Some(email), o).state;
    AnswerStep(s1, email, o, c.(email := Some(email)));
    c := c.(email := Some(email));
    var s3 := Script(s2, Some(phone), o).state;
    AnswerStep(s2, phone, o, c.(phone := Some(phone)));
    c := c.(phone := Some(phone));
    var s4 := Script(s3, Some(years), o).state;
    ExperienceStep(s3, years, o, n);
    c := c.(experience := Some(n));
    var s5 := Script(s4, Some(role), o).state;
    AnswerStep(s4, role, o, c.(role := Some(role)));
    c := c.(role := Some(role));
    var s6 := Script(s5, Some(place), o).state;
    AnswerStep(s5, place, o, c.(location := Some(place)));
    c := c.(location := Some(place));
    StackStep(s6, stack, o, SplitTechStack(stack));
  }

  /** The walk-through with concrete answers: the profile is Ada's, and question
      generation asks for advanced questions about Go and Docker. */
  lemma ProfileWalkThrough(o: Oracle)
    ensures var s := AfterProfile(o, "Ada", "a@b.com", "555", "I have 5 years", "Backend Engineer", "Remote", "Go, Docker");
      && StandsAt(s, GenerateQuestions, AdaProfile, 15)
      && Auto(s, o).state.step ==
           (if o.generate(QuestionRequest(Some("Ada"), Some("Backend Engineer"), s.language, ["Go", "Docker"], Advanced)).Success?
            then Interview else Error)
  {
    AdaIsNotAnExit();
    EmailIsNotAnExit();
    PhoneIsNotAnExit();
    YearsAreNotAnExit();
    FiveYears();
    RoleIsNotAnExit();
    PlaceIsNotAnExit();
    StackIsNotAnExit();
    ShortStackExample();
    ProfileCollection(o, "Ada", "a@b.com", "555", "I have 5 years", "Backend Engineer", "Remote", "Go, Docker", 5);
    var s := AfterProfile(o, "Ada", "a@b.com", "555", "I have 5 years", "Backend Engineer", "Remote", "Go, Docker");
    AdaGetsAdvancedQuestions(s, o);
  }

  /** Five years of experience ask for the advanced tier. */
  lemma AdaGetsAdvancedQuestions(s: State, o: Oracle)
    requires StandsAt(s, GenerateQuestions, AdaProfile, 15)
    ensures Auto(s, o).state.step ==
      (if o.generate(QuestionRequest(Some("Ada"), Some("Backend Engineer"), s.language, ["Go", "Docker"], Advanced)).Success?
       then Interview else Error)
  {
    GenerationRun(s, o, 5);
  }

  /** "stop" at the phone question ends the conversation with the phone number never
      stored, and from then on every answer that is not an exit halts the run. */
  lemma StopAtPhoneQuestion(o: Oracle, later: string)
    requires !ExitRequested(later) && later != ""
    ensures var s0 := Script(Initial(), None, o).state;
      var s1 := Script(s0, Some("Ada"), o).state;
      var s2 := Script(s1, Some("a@b.com"), o).state;
      var s3 := Script(s2, Some("stop"), o);
      && s3.outcome == Rerun
      && s3.state.step == Completed
      && s3.state.candidate == EmptyCandidate.(name := Some("Ada"), email := Some("a@b.com"))
      && s3.state.messages[|s3.state.messages| - 1] == Message(Assistant, Fixed(Farewell))
      && Script(s3.state, Some(later), o).outcome == Halt
  {
    AdaIsNotAnExit();
    EmailIsNotAnExit();
    StopIsAnExit();
  }
}
