/** The pure helpers the conversation applies to the candidate's answers and scores:
    experience parsing, the tech-stack split, the difficulty tier and the mean score. */
module Intake {
  import opened Wrappers
  import opened Text

  // ---------------------------------------------------------------------------
  // Years of experience
  // ---------------------------------------------------------------------------

  /** Python's default cap on the number of digits `int()` converts from a string
      (`sys.get_int_max_str_digits()`, CPython 3.11 on): a longer digit string raises
      `ValueError`. */
  const MaxIntDigits: nat := 4300

  /** An answer the experience question accepts: `int()` can read its digits, that is,
      there is at least one and there are no more than the cap. */
  predicate ReadsAsNumber(text: string) {
    HasDigit(text) && |DigitsOf(text)| <= MaxIntDigits
  }

  /** `int(''.join(filter(str.isdigit, text)))`, or None where `int` raises: on `''`, and
      on a digit string longer than the cap. */
  function ParseExperience(text: string): (years: Option<nat>)
    ensures years.Some? <==> ReadsAsNumber(text)
  {
    DigitsOfExtremes(text);
    var ds := DigitsOf(text);
    if ds == "" || |ds| > MaxIntDigits then None else Some(DecimalValue(ds))
  }

  /** A number written among text without other digits is read back exactly, unless it
      has more digits than `int()` converts. */
  lemma ParseSurroundedNumber(before: string, n: nat, after: string)
    requires !HasDigit(before) && !HasDigit(after)
    ensures ParseExperience(before + NatToString(n) + after)
            == if |NatToString(n)| <= MaxIntDigits then Some(n) else None
  {
    var ds := NatToString(n);
    DigitsOfSurrounded(before, ds, after);
    DigitsOfExtremes(ds);
    DecimalOfNatToString(n);
  }

  /** Appending a digit string multiplies the value read so far by ten per digit. */
  lemma {:induction false} DecimalValueAppend(a: string, b: string)
    requires AllDigits(a) && AllDigits(b)
    ensures DecimalValue(a + b) == DecimalValue(a) * Pow10(|b|) + DecimalValue(b)
    decreases |b|
  {
    if b == [] {
      assert a + b == a;
    } else {
      var b' := b[..|b| - 1];
      var c := a + b;
      assert c[..|c| - 1] == a + b';
      assert c[|c| - 1] == b[|b| - 1];
      DecimalValueAppend(a, b');
      ShiftOneDigit(DecimalValue(a), Pow10(|b'|), DecimalValue(b'), DigitValue(b[|b| - 1]));
    }
  }

  /** `(x * p + y) * 10 + d == x * (10 * p) + (y * 10 + d)`. */
  lemma ShiftOneDigit(x: nat, p: nat, y: nat, d: nat)
    ensures (x * p + y) * 10 + d == x * (10 * p) + (y * 10 + d)
  {
    assert (x * p) * 10 == x * (10 * p);
  }

  function Pow10(k: nat): nat {
    if k == 0 then 1 else 10 * Pow10(k - 1)
  }

  /** Every digit of the answer counts, in order: two numbers in one answer are read as
      their concatenation (when the two together stay within the digit cap). */
  lemma ParseConcatenatesNumbers(before: string, m: nat, middle: string, n: nat, after: string)
    requires !HasDigit(before) && !HasDigit(middle) && !HasDigit(after)
    ensures ParseExperience(before + NatToString(m) + middle + NatToString(n) + after)
            == if |NatToString(m)| + |NatToString(n)| <= MaxIntDigits
               then Some(m * Pow10(|NatToString(n)|) + n) else None
  {
    var dm, dn := NatToString(m), NatToString(n);
    var text := before + dm + middle + dn + after;
    DigitsOfTwoSurrounded(before, dm, middle, dn, after);
    ParseOfDigits(text, dm + dn);
    ValueOfTwoNumbers(m, n);
  }

  /** The digits of two numbers written among digit-free text are the two numbers' digits. */
  lemma DigitsOfTwoSurrounded(before: string, dm: string, middle: string, dn: string, after: string)
    requires !HasDigit(before) && !HasDigit(middle) && !HasDigit(after)
    requires AllDigits(dm) && AllDigits(dn)
    ensures DigitsOf(before + dm + middle + dn + after) == dm + dn
  {
    var p1 := before + dm;
    var p2 := p1 + middle;
    var p3 := p2 + dn;
    DigitsOfExtremes(before);
    DigitsOfExtremes(dm);
    DigitsOfExtremes(middle);
    DigitsOfExtremes(dn);
    DigitsOfExtremes(after);
    DigitsOfAppend(before, dm);
    assert DigitsOf(p1) == dm by { assert "" + dm == dm; }
    DigitsOfAppend(p1, middle);
    assert DigitsOf(p2) == dm by { assert dm + "" == dm; }
    DigitsOfAppend(p2, dn);
    DigitsOfAppend(p3, after);
    assert DigitsOf(p3 + after) == dm + dn by { assert (dm + dn) + "" == dm + dn; }
  }

  /** Reading the digits of `m` followed by those of `n`. */
  lemma ValueOfTwoNumbers(m: nat, n: nat)
    ensures AllDigits(NatToString(m) + NatToString(n))
    ensures DecimalValue(NatToString(m) + NatToString(n)) == m * Pow10(|NatToString(n)|) + n
  {
    var dm, dn := NatToString(m), NatToString(n);
    DecimalValueAppend(dm, dn);
    DecimalOfNatToString(m);
    DecimalOfNatToString(n);
  }

  /** An answer whose digits are `ds` is read as the value of `ds`, if `int()` accepts
      that many digits. */
  lemma ParseOfDigits(text: string, ds: string)
    requires DigitsOf(text) == ds && ds != ""
    ensures AllDigits(ds)
    ensures ParseExperience(text) == if |ds| <= MaxIntDigits then Some(DecimalValue(ds)) else None
  {
  }

  // ---------------------------------------------------------------------------
  // Tech stack
  // ---------------------------------------------------------------------------

  /** `[t.strip() for t in text.split(",")]`: one entry per comma-separated piece, in
      order, each the piece stripped of surrounding whitespace; empty and repeated
      entries are kept. */
  function SplitTechStack(text: string): (stack: seq<string>)
    ensures |stack| == |Split(text, ',')| >= 1
    ensures forall k :: 0 <= k < |stack| ==> stack[k] == Strip(Split(text, ',')[k])
    ensures forall k :: 0 <= k < |stack| ==> IsStripped(stack[k]) && ',' !in stack[k]
  {
    var pieces := Split(text, ',');
    assert forall k :: 0 <= k < |pieces| ==> ',' !in Strip(pieces[k]) by {
      forall k | 0 <= k < |pieces| ensures ',' !in Strip(pieces[k]) {
        StripKeepsNoComma(pieces[k]);
      }
    }
    seq(|pieces|, k requires 0 <= k < |pieces| => Strip(pieces[k]))
  }

  /** Stripping a piece that holds no comma leaves none. */
  lemma StripKeepsNoComma(piece: string)
    requires ',' !in piece
    ensures ',' !in Strip(piece)
  {
    var lo := StripFrom(piece, 0);
    NotInSlice(piece, ',', lo, StripTo(piece, lo, |piece|));
  }

  /** Stripping recovers a stripped word from any whitespace padding around it. */
  lemma StripOfPadded(a: string, x: string, b: string)
    requires AllSpace(a) && AllSpace(b) && IsStripped(x)
    ensures Strip(a + x + b) == x
  {
    var s := a + x + b;
    var hi := |a| + |x|;
    assert forall m :: 0 <= m < |a| ==> s[m] == a[m];
    assert forall m :: hi <= m < |s| ==> s[m] == b[m - hi];
    if x == [] {
      StripFromStops(s, 0, |s|);
    } else {
      assert s[|a|] == x[0] && s[hi - 1] == x[|x| - 1];
      StripFromStops(s, 0, |a|);
      StripToStops(s, |a|, |s|, hi);
      assert s[|a|..hi] == x;
    }
  }

  /** Pads every entry after the first with `pad` in front. */
  function PadTail(xs: seq<string>, pad: string): (ys: seq<string>)
    requires |xs| >= 1
    ensures |ys| == |xs| && ys[0] == xs[0]
    ensures forall k :: 1 <= k < |xs| ==> ys[k] == pad + xs[k]
  {
    [xs[0]] + seq(|xs| - 1, k requires 0 <= k < |xs| - 1 => pad + xs[k + 1])
  }

  /** Pads every entry after the first with one leading space. */
  function Padded(xs: seq<string>): (ys: seq<string>)
    requires |xs| >= 1
    ensures |ys| == |xs| && ys[0] == xs[0]
    ensures forall k :: 1 <= k < |xs| ==> ys[k] == " " + xs[k]
  {
    PadTail(xs, " ")
  }

  /** `", ".join(xs)` is `",".join` of the entries with a space in front of all but the
      first. */
  lemma JoinCommaSpace(xs: seq<string>)
    requires |xs| >= 1
    ensures Join(xs, ", ") == Join(Padded(xs), ",")
  {
    JoinPadTail(xs, " ", ",");
    assert "," + " " == ", ";
  }

  /** Joining with `sep + pad` is joining with `sep` after padding all but the first entry. */
  lemma {:induction false} JoinPadTail(xs: seq<string>, pad: string, sep: string)
    requires |xs| >= 1
    ensures Join(xs, sep + pad) == Join(PadTail(xs, pad), sep)
    decreases |xs|
  {
    if |xs| > 1 {
      var zs := PadTail(xs[1..], pad);
      var rest := Join(zs, sep);
      JoinPadTail(xs[1..], pad, sep);
      assert Join(xs, sep + pad) == xs[0] + (sep + pad) + rest by {
        JoinUnfold(xs, sep + pad);
      }
      assert Join(PadTail(xs, pad), sep) == xs[0] + sep + (pad + rest) by {
        PadTailTail(xs, pad);
        JoinUnfold(PadTail(xs, pad), sep);
        JoinPaddedHead(zs, pad, sep);
      }
      SeparatorThenPad(xs[0], sep, pad, rest);
    }
  }

  /** Past its head, a padded list is the padded tail with `pad` in front of its head. */
  lemma PadTailTail(xs: seq<string>, pad: string)
    requires |xs| > 1
    ensures PadTail(xs, pad)[1..] == [pad + PadTail(xs[1..], pad)[0]] + PadTail(xs[1..], pad)[1..]
  {
  }

  /** A join of two or more pieces is the first piece, the separator and the join of the rest. */
  lemma JoinUnfold(xs: seq<string>, sep: string)
    requires |xs| > 1
    ensures Join(xs, sep) == xs[0] + sep + Join(xs[1..], sep)
  {
  }

  lemma SeparatorThenPad(a: string, sep: string, pad: string, b: string)
    ensures a + sep + (pad + b) == a + (sep + pad) + b
  {
  }

  /** Prefixing the first piece prefixes the joined text. */
  lemma JoinPaddedHead(zs: seq<string>, pad: string, sep: string)
    requires |zs| >= 1
    ensures Join([pad + zs[0]] + zs[1..], sep) == pad + Join(zs, sep)
  {
    var ws := [pad + zs[0]] + zs[1..];
    if |zs| > 1 {
      assert ws[1..] == zs[1..];
      var rest := Join(zs[1..], sep);
      assert (pad + zs[0]) + sep + rest == pad + (zs[0] + sep + rest);
    }
  }

  lemma PaddedHasNoComma(stack: seq<string>)
    requires |stack| >= 1
    requires forall k :: 0 <= k < |stack| ==> ',' !in stack[k]
    ensures forall k :: 0 <= k < |stack| ==> ',' !in Padded(stack)[k]
  {
    var ys := Padded(stack);
    forall k | 1 <= k < |stack| ensures ',' !in ys[k] {
      assert ys[k] == [' '] + stack[k];
    }
  }

  lemma SplitCommaSpace(stack: seq<string>)
    requires |stack| >= 1
    requires forall k :: 0 <= k < |stack| ==> ',' !in stack[k]
    ensures Split(Join(stack, ", "), ',') == Padded(stack)
  {
    JoinCommaSpace(stack);
    PaddedHasNoComma(stack);
    SplitJoin(Padded(stack), ',');
  }

  lemma StripPaddedEntry(stack: seq<string>, k: nat)
    requires k < |stack| && IsStripped(stack[k])
    ensures Strip(Padded(stack)[k]) == stack[k]
  {
    var p := Padded(stack)[k];
    if k == 0 {
      assert p == "" + stack[0] + "";
      StripOfPadded("", stack[0], "");
    } else {
      assert p == " " + stack[k] + "";
      assert AllSpace(" ");
      StripOfPadded(" ", stack[k], "");
    }
  }

  /** The sidebar shows the stack as `', '.join(stack)`; splitting that text again gives
      back the same stack, as long as no entry holds a comma or surrounding whitespace. */
  lemma TechStackRoundTrip(stack: seq<string>)
    requires |stack| >= 1
    requires forall k :: 0 <= k < |stack| ==> IsStripped(stack[k]) && ',' !in stack[k]
    ensures SplitTechStack(Join(stack, ", ")) == stack
  {
    var text := Join(stack, ", ");
    SplitCommaSpace(stack);
    var pieces := Split(text, ',');
    var r := SplitTechStack(text);
    forall k | 0 <= k < |stack| ensures r[k] == stack[k] {
      assert r[k] == Strip(pieces[k]);
      StripPaddedEntry(stack, k);
    }
  }

  /** Every entry of `xs` with its own whitespace before and after it. */
  function PadEach(xs: seq<string>, before: seq<string>, after: seq<string>): (ps: seq<string>)
    requires |before| == |xs| == |after|
    ensures |ps| == |xs|
    ensures forall k :: 0 <= k < |xs| ==> ps[k] == before[k] + xs[k] + after[k]
  {
    seq(|xs|, k requires 0 <= k < |xs| => before[k] + xs[k] + after[k])
  }

  /** Whatever whitespace the candidate types around the entries, the split gives back
      the entries: `SplitTechStack` inverts joining padded entries with commas. */
  lemma TechStackIgnoresPadding(xs: seq<string>, before: seq<string>, after: seq<string>)
    requires |xs| >= 1 && |before| == |xs| == |after|
    requires forall k :: 0 <= k < |xs| ==> IsStripped(xs[k]) && ',' !in xs[k]
    requires forall k :: 0 <= k < |xs| ==> AllSpace(before[k]) && AllSpace(after[k])
    ensures SplitTechStack(Join(PadEach(xs, before, after), ",")) == xs
  {
    var ps := PadEach(xs, before, after);
    forall k | 0 <= k < |ps| ensures ',' !in ps[k] {
      SpaceHoldsNoComma(before[k]);
      SpaceHoldsNoComma(after[k]);
    }
    SplitJoin(ps, ',');
    var r := SplitTechStack(Join(ps, ","));
    forall k | 0 <= k < |xs| ensures r[k] == xs[k] {
      StripOfPadded(before[k], xs[k], after[k]);
    }
  }

  lemma SpaceHoldsNoComma(s: string)
    requires AllSpace(s)
    ensures ',' !in s
  {
  }

  // ---------------------------------------------------------------------------
  // Difficulty tier
  // ---------------------------------------------------------------------------

  datatype Tier = Basic | Intermediate | Advanced

  /** The tier the question generator is asked for, by years of experience. */
  function Difficulty(experience: int): Tier {
    if experience >= 5 then Advanced
    else if experience >= 2 then Intermediate
    else Basic
  }

  function TierRank(t: Tier): nat {
    match t
    case Basic => 0
    case Intermediate => 1
    case Advanced => 2
  }

  /** More experience never lowers the tier. */
  lemma DifficultyIsMonotone(a: int, b: int)
    requires a <= b
    ensures TierRank(Difficulty(a)) <= TierRank(Difficulty(b))
  {
  }

  /** One, three and seven years give the three tiers. */
  lemma DifficultyExamples()
    ensures Difficulty(1) == Basic && Difficulty(3) == Intermediate && Difficulty(7) == Advanced
  {
  }

  // ---------------------------------------------------------------------------
  // Scores
  // ---------------------------------------------------------------------------

  /** The evaluation of one answer, as the JSON object the evaluator returns. */
  datatype Score = Score(clarity: int, technicalAccuracy: int, depth: int)

  /** What is recorded when the evaluation call fails. */
  const FallbackScore: Score := Score(1, 1, 1)

  /** `(s["clarity"] + s["technical_accuracy"] + s["depth"]) / 3`, exactly. */
  function MeanOf(s: Score): real {
    (s.clarity + s.technicalAccuracy + s.depth) as real / 3.0
  }

  /** `sum(... for s in scores)`, added left to right. */
  function SumOfMeans(scores: seq<Score>): real
    decreases |scores|
  {
    if scores == [] then 0.0
    else SumOfMeans(scores[..|scores| - 1]) + MeanOf(scores[|scores| - 1])
  }

  /** The average of the per-answer means; Python divides by `len(scores)`, so the list
      must not be empty. */
  function AverageScore(scores: seq<Score>): (avg: real)
    requires |scores| > 0
  {
    SumOfMeans(scores) / |scores| as real
  }

  lemma {:induction false} SumOfMeansBounds(scores: seq<Score>, lo: real, hi: real)
    requires forall k :: 0 <= k < |scores| ==> lo <= MeanOf(scores[k]) <= hi
    ensures |scores| as real * lo <= SumOfMeans(scores) <= |scores| as real * hi
    decreases |scores|
  {
    if scores != [] {
      var init := scores[..|scores| - 1];
      forall k | 0 <= k < |init| ensures lo <= MeanOf(init[k]) <= hi {
        assert init[k] == scores[k];
      }
      SumOfMeansBounds(init, lo, hi);
      var n, m := |init| as real, MeanOf(scores[|scores| - 1]);
      assert SumOfMeans(scores) == SumOfMeans(init) + m;
      assert |scores| as real == n + 1.0;
      AddWithinBounds(n, SumOfMeans(init), m, lo, hi);
    }
  }

  /** Adding one more value within `[lo, hi]` to a sum of `n` of them. */
  lemma AddWithinBounds(n: real, sum: real, m: real, lo: real, hi: real)
    requires n * lo <= sum <= n * hi && lo <= m <= hi
    ensures (n + 1.0) * lo <= sum + m <= (n + 1.0) * hi
  {
    assert (n + 1.0) * lo == n * lo + lo && (n + 1.0) * hi == n * hi + hi;
  }

  /** The average lies between the smallest and largest bound of the per-answer means. */
  lemma AverageWithin(scores: seq<Score>, lo: real, hi: real)
    requires |scores| > 0
    requires forall k :: 0 <= k < |scores| ==> lo <= MeanOf(scores[k]) <= hi
    ensures lo <= AverageScore(scores) <= hi
  {
    SumOfMeansBounds(scores, lo, hi);
    var n := |scores| as real;
    assert SumOfMeans(scores) / n >= lo by {
      assert SumOfMeans(scores) >= n * lo;
    }
    assert SumOfMeans(scores) / n <= hi by {
      assert SumOfMeans(scores) <= n * hi;
    }
  }

  /** Scores on the 1-5 scale that the evaluator is asked for average into that scale. */
  lemma AverageOnScale(scores: seq<Score>)
    requires |scores| > 0
    requires forall k :: 0 <= k < |scores| ==>
      1 <= scores[k].clarity <= 5 && 1 <= scores[k].technicalAccuracy <= 5 && 1 <= scores[k].depth <= 5
    ensures 1.0 <= AverageScore(scores) <= 5.0
  {
    AverageWithin(scores, 1.0, 5.0);
  }

  /** When every evaluation failed, the average is the minimum, 1. */
  lemma AverageOfFallbacks(scores: seq<Score>)
    requires |scores| > 0
    requires forall k :: 0 <= k < |scores| ==> scores[k] == FallbackScore
    ensures AverageScore(scores) == 1.0
  {
    AverageWithin(scores, 1.0, 1.0);
  }
}
