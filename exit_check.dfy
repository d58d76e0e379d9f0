/** The global exit check applied to every user turn (`check_exit`). */
module ExitCheck {
  import opened Text

  /** The keywords that end the conversation when they occur as whole words. */
  const ExitKeywords: seq<string> := ["exit", "quit", "stop", "bye", "terminate", "goodbye"]

  /** The phrase that ends the conversation wherever it occurs, even inside a word. */
  const EndPhrase: string := "end conversation"

  /** `p` occurs in `t` at position `i`. */
  predicate OccursAt(t: string, p: string, i: int) {
    0 <= i && i + |p| <= |t| && MatchFrom(t, p, i, 0)
  }

  /** `t[i + j..i + |p|] == p[j..]`, compared one character at a time. */
  predicate MatchFrom(t: string, p: string, i: nat, j: nat)
    requires i + |p| <= |t| && j <= |p|
    decreases |p| - j
  {
    j == |p| || (t[i + j] == p[j] && MatchFrom(t, p, i, j + 1))
  }

  /** The character-wise comparison is slice equality. */
  lemma {:induction false} MatchFromIsSliceEquality(t: string, p: string, i: nat, j: nat)
    requires i + |p| <= |t| && j <= |p|
    ensures MatchFrom(t, p, i, j) <==> t[i + j..i + |p|] == p[j..]
    decreases |p| - j
  {
    if j < |p| {
      MatchFromIsSliceEquality(t, p, i, j + 1);
      assert t[i + j..i + |p|] == [t[i + j]] + t[i + j + 1..i + |p|];
      assert p[j..] == [p[j]] + p[j + 1..];
    }
  }

  /** The pattern `\b<w>\b` matches `t` at position `i`, for a word `w` that begins and
      ends with a word character: `w` occurs there and no word character touches it. */
  predicate WholeWordAt(t: string, w: string, i: int) {
    OccursAt(t, w, i)
    && (i == 0 || !IsWordChar(t[i - 1]))
    && (i + |w| == |t| || !IsWordChar(t[i + |w|]))
  }

  /** When `check_exit(text)` returns True: the lower-cased text holds an exit keyword
      as a whole word, or holds the end phrase anywhere. */
  ghost predicate ExitRequested(text: string) {
    var t := Lower(text);
    (exists k, i :: 0 <= k < |ExitKeywords| && WholeWordAt(t, ExitKeywords[k], i))
    || (exists i :: OccursAt(t, EndPhrase, i))
  }

  /** `re.search(rf"\b{w}\b", t)`, scanning the start positions from `from` on. */
  function SearchWord(t: string, w: string, from: nat): bool
    decreases |t| - from
  {
    if from + |w| > |t| then false
    else WholeWordAt(t, w, from) || SearchWord(t, w, from + 1)
  }

  lemma {:induction false} SearchWordFinds(t: string, w: string, from: nat)
    ensures SearchWord(t, w, from) <==> exists i :: from <= i && WholeWordAt(t, w, i)
    decreases |t| - from
  {
    if from + |w| <= |t| {
      SearchWordFinds(t, w, from + 1);
    }
  }

  /** `p in t`, scanning the start positions from `from` on. */
  function SearchPhrase(t: string, p: string, from: nat): bool
    decreases |t| - from
  {
    if from + |p| > |t| then false
    else OccursAt(t, p, from) || SearchPhrase(t, p, from + 1)
  }

  lemma {:induction false} SearchPhraseFinds(t: string, p: string, from: nat)
    ensures SearchPhrase(t, p, from) <==> exists i :: from <= i && OccursAt(t, p, i)
    decreases |t| - from
  {
    if from + |p| <= |t| {
      SearchPhraseFinds(t, p, from + 1);
    }
  }

  /** `check_exit`: tries each keyword in turn, returning as soon as one is found,
      then looks for the end phrase. */
  method CheckExit(text: string) returns (found: bool)
    ensures found <==> ExitRequested(text)
  {
    var t := Lower(text);
    for k := 0 to |ExitKeywords|
      invariant forall j, i :: 0 <= j < k ==> !WholeWordAt(t, ExitKeywords[j], i)
    {
      SearchWordFinds(t, ExitKeywords[k], 0);
      if SearchWord(t, ExitKeywords[k], 0) {
        return true;
      }
    }
    SearchPhraseFinds(t, EndPhrase, 0);
    found := SearchPhrase(t, EndPhrase, 0);
  }

  /** The six keyword scans and the end-phrase scan of an already lower-cased text. */
  predicate ScanForExit(t: string) {
    SearchWord(t, "exit", 0) || SearchWord(t, "quit", 0) || SearchWord(t, "stop", 0)
    || SearchWord(t, "bye", 0) || SearchWord(t, "terminate", 0) || SearchWord(t, "goodbye", 0)
    || SearchPhrase(t, "end conversation", 0)
  }

  /** The exit condition is the scan of the lower-cased text: the declarative predicate
      and the six keyword searches plus the phrase search agree on every input. */
  lemma ExitByScan(text: string)
    ensures ExitRequested(text) <==> ScanForExit(Lower(text))
  {
    var t := Lower(text);
    var ks := ExitKeywords;
    assert ks[0] == "exit" && ks[1] == "quit" && ks[2] == "stop";
    assert ks[3] == "bye" && ks[4] == "terminate" && ks[5] == "goodbye";
    SearchWordFinds(t, "exit", 0);
    SearchWordFinds(t, "quit", 0);
    SearchWordFinds(t, "stop", 0);
    SearchWordFinds(t, "bye", 0);
    SearchWordFinds(t, "terminate", 0);
    SearchWordFinds(t, "goodbye", 0);
    SearchPhraseFinds(t, EndPhrase, 0);
    if exists k, i :: 0 <= k < |ks| && WholeWordAt(t, ks[k], i) {
      var k, i :| 0 <= k < |ks| && WholeWordAt(t, ks[k], i);
      assert k in {0, 1, 2, 3, 4, 5};
    }
  }

  /** The keyword `w` stands nowhere in `t` as a whole word. */
  ghost predicate NoWholeWord(t: string, w: string) {
    forall i :: !WholeWordAt(t, w, i)
  }

  /** A text in which no keyword stands as a whole word and the end phrase does not
      occur is not an exit. */
  lemma NoKeywordIsNoExit(text: string)
    requires NoWholeWord(Lower(text), "exit") && NoWholeWord(Lower(text), "quit")
    requires NoWholeWord(Lower(text), "stop") && NoWholeWord(Lower(text), "bye")
    requires NoWholeWord(Lower(text), "terminate") && NoWholeWord(Lower(text), "goodbye")
    requires forall i :: !OccursAt(Lower(text), EndPhrase, i)
    ensures !ExitRequested(text)
  {
    var ks := ExitKeywords;
    forall k, i | 0 <= k < |ks| ensures !WholeWordAt(Lower(text), ks[k], i) {
      assert k in {0, 1, 2, 3, 4, 5};
    }
  }

  /** `text` holds `c` in neither case: no character of it lower-cases to `c`. */
  predicate Lacks(text: string, c: char) {
    forall i :: 0 <= i < |text| ==> LowerChar(text[i]) != c
  }

  /** A letter that `text` holds in neither case is not in its lower-cased form. */
  lemma LacksAfterLower(text: string, c: char)
    requires Lacks(text, c)
    ensures c !in Lower(text)
  {
  }

  /** An occurrence of `w` in `t` puts every character of `w` in `t`. */
  lemma OccurrenceHoldsLetters(t: string, w: string, i: int)
    requires OccursAt(t, w, i)
    ensures forall c :: c in w ==> c in t
  {
    MatchFromIsSliceEquality(t, w, i, 0);
    forall c | c in w ensures c in t {
      var j :| 0 <= j < |w| && w[j] == c;
      assert t[i + j] == c;
    }
  }

  /** A text that lacks one letter of `w` in both cases holds `w` nowhere once
      lower-cased, neither as a whole word nor inside one. */
  lemma MissingLetter(text: string, w: string, c: char)
    requires c in w && Lacks(text, c)
    ensures forall i :: !OccursAt(Lower(text), w, i)
    ensures NoWholeWord(Lower(text), w)
  {
    var t := Lower(text);
    LacksAfterLower(text, c);
    forall i ensures !OccursAt(t, w, i) {
      if OccursAt(t, w, i) {
        OccurrenceHoldsLetters(t, w, i);
      }
    }
  }

  /** An exit keyword standing as a whole word ends the conversation. */
  lemma WholeKeywordIsAnExit(text: string, k: nat, i: int)
    requires k < |ExitKeywords| && WholeWordAt(Lower(text), ExitKeywords[k], i)
    ensures ExitRequested(text)
  {
  }

  /** "exited" is not an exit: "exit" is followed by a word character there, and
      every other keyword lacks a letter of it. */
  lemma ExitedIsNotAnExit()
    ensures !ExitRequested("exited")
  {
    var text := "exited";
    var t := Lower(text);
    forall i ensures !WholeWordAt(t, "exit", i) {
      if i == 0 {
        assert t[4] == 'e';
      } else if i == 1 {
        assert t[1] == 'x';
      } else if i == 2 {
        assert t[2] == 'i';
      }
    }
    MissingLetter(text, "quit", 'q');
    MissingLetter(text, "stop", 's');
    MissingLetter(text, "bye", 'b');
    MissingLetter(text, "terminate", 'r');
    MissingLetter(text, "goodbye", 'g');
    MissingLetter(text, EndPhrase, 'c');
    NoKeywordIsNoExit(text);
  }

  /** "I QUIT" is an exit: case is ignored and "quit" stands as a whole word. */
  lemma UpperCaseQuitIsAnExit()
    ensures ExitRequested("I QUIT")
  {
    var t := Lower("I QUIT");
    assert t[1] == ' ' && t[2] == 'q' && t[3] == 'u' && t[4] == 'i' && t[5] == 't';
    assert WholeWordAt(t, "quit", 2);
    WholeKeywordIsAnExit("I QUIT", 1, 2);
  }
}
