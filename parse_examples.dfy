/**
 * The worked examples of `retrieve_by_amount`'s documentation, read by the parser: each
 * question becomes the store call the documentation names. Each question is written as a
 * concatenation of short literals (the same text), which the solver takes apart cheaply.
 */
module ParseExamples {
  import opened Wrappers
  import opened Text
  import opened AmountText
  import opened Queries
  import opened Parsing

  /**
   * No cue word of `cues` occurs in `text` when each has a character, `picks[k]`, outside the
   * characters `text` is made of.
   */
  lemma NotMentioned(text: string, alphabet: set<char>, cues: seq<string>, picks: seq<char>)
    requires forall c :: c in text ==> c in alphabet
    requires |picks| == |cues|
    requires forall k :: 0 <= k < |cues| ==> picks[k] in cues[k] && picks[k] !in alphabet
    ensures !Mentioned(text, cues)
  {
    forall k | 0 <= k < |cues| ensures !Contains(text, cues[k]) {
      AbsentByChar(text, cues[k], picks[k]);
    }
  }

  /** A question that starts with a cue word mentions it. */
  lemma {:induction false} MentionedAtStart(text: string, cues: seq<string>, k: int)
    requires 0 <= k < |cues|
    requires StartsWith(text, cues[k])
    ensures Mentioned(text, cues)
  {
    assert Contains(text, cues[k]);
  }

  /** `w` followed by a dollar amount, where `w` holds no digit and no `$`, mentions that amount alone. */
  lemma {:induction false} OneDollarAmount(w: string, n: nat)
    requires Plain(w)
    ensures Amounts(w + "$" + Grouped(n)) == [n as real]
  {
    var d := "$" + Grouped(n);
    AmountsOfDollars(n, []);
    assert d + [] == d;
    assert Amounts([]) == [];
    AmountsSkipText(w, d);
    assert w + "$" + Grouped(n) == w + d;
  }

  lemma Grouped10000() ensures Grouped(10000) == "10,000"
  {
    assert Numeral(1) == "1";
    assert Numeral(10) == "10";
    assert Triple(0) == ",000";
  }

  lemma Grouped20000() ensures Grouped(20000) == "20,000"
  {
    assert Numeral(2) == "2";
    assert Numeral(20) == "20";
    assert Triple(0) == ",000";
  }

  lemma Grouped25000() ensures Grouped(25000) == "25,000"
  {
    assert Numeral(2) == "2";
    assert Numeral(25) == "25";
    assert Triple(0) == ",000";
  }

  lemma Grouped50000() ensures Grouped(50000) == "50,000"
  {
    assert Numeral(5) == "5";
    assert Numeral(50) == "50";
    assert Triple(0) == ",000";
  }

  lemma Grouped80000() ensures Grouped(80000) == "80,000"
  {
    assert Numeral(8) == "8";
    assert Numeral(80) == "80";
    assert Triple(0) == ",000";
  }

  lemma Grouped100000() ensures Grouped(100000) == "100,000"
  {
    assert Numeral(1) == "1";
    assert Numeral(10) == "10";
    assert Numeral(100) == "100";
    assert Triple(0) == ",000";
  }

  lemma OverSpelled(q: string)
    requires q == "over " + "$" + "50,000"
    ensures q == "over " + "$" + Grouped(50000)
    ensures Plain("over ")
  {
    Grouped50000();
  }

  lemma OverAmounts(q: string)
    requires q == "over " + "$" + "50,000"
    ensures Amounts(q) == [50000.0]
  {
    OverSpelled(q);
    OneDollarAmount("over ", 50000);
  }

  lemma OverLower(q: string)
    requires q == "over " + "$" + "50,000"
    ensures Lower(q) == q
  {
    LowerIdentity(q);
  }

  lemma OverCues(q: string)
    requires q == "over " + "$" + "50,000"
    ensures CueOf(Lower(q)) == OverCue
  {
    OverLower(q);
    MentionedAtStart(q, OVER_CUES, 0);
  }

  /** "over $50,000" searches for amounts of at least 50000. */
  lemma {:induction false} OverExample(q: string)
    requires q == "over " + "$" + "50,000"
    ensures ParseQuery(q) == AmountRange(Some(50000.0), None)
  {
    OverAmounts(q);
    OverCues(q);
  }

  lemma UnderSpelled(q: string)
    requires q == "under " + "$" + "10,000"
    ensures q == "under " + "$" + Grouped(10000)
    ensures Plain("under ")
  {
    Grouped10000();
  }

  lemma UnderAmounts(q: string)
    requires q == "under " + "$" + "10,000"
    ensures Amounts(q) == [10000.0]
  {
    UnderSpelled(q);
    OneDollarAmount("under ", 10000);
  }

  lemma {:induction false} UnderLower(q: string)
    requires q == "under " + "$" + "10,000"
    ensures Lower(q) == q
  {
    LowerIdentity(q);
  }

  const UNDER_CHARS: set<char> := {'u', 'n', 'd', 'e', 'r', ' ', '$', '1', '0', ','}

  /** The characters the question is made of. */
  lemma UnderAlphabet(q: string)
    requires q == "under " + "$" + "10,000"
    ensures forall c :: c in q ==> c in UNDER_CHARS
  {
  }

  /** No cue of a family tested before this one occurs in a text made of the question's characters. */
  lemma UnderEarlierCuesAbsent(q: string)
    requires forall c :: c in q ==> c in UNDER_CHARS
    ensures !Mentioned(q, OVER_CUES)
  {
    NotMentioned(q, UNDER_CHARS, OVER_CUES, ['o', 'o', 'o', 'g', '>']);
  }

  lemma {:induction false} UnderCues(q: string)
    requires q == "under " + "$" + "10,000"
    ensures CueOf(Lower(q)) == UnderCue
  {
    UnderLower(q);
    UnderAlphabet(q);
    UnderEarlierCuesAbsent(q);
    MentionedAtStart(q, UNDER_CUES, 0);
  }

  /** "under $10,000" searches for amounts of at most 10000. */
  lemma {:induction false} UnderExample(q: string)
    requires q == "under " + "$" + "10,000"
    ensures ParseQuery(q) == AmountRange(None, Some(10000.0))
  {
    UnderAmounts(q);
    UnderCues(q);
  }

  lemma Regroup(a: string, b: string, c: string, d: string, e: string, f: string)
    ensures a + b + c + d + e + f == a + (b + c + (d + e + f))
  {
  }

  /** Two dollar amounts separated by plain text are read in order. */
  lemma {:induction false} TwoDollarAmounts(q: string, w1: string, n1: nat, w2: string, n2: nat)
    requires Plain(w1) && Plain(w2)
    requires w2 != [] && w2[0] != ',' && w2[0] != '.'
    requires q == w1 + "$" + Grouped(n1) + w2 + "$" + Grouped(n2)
    ensures Amounts(q) == [n1 as real, n2 as real]
  {
    var g1, g2 := Grouped(n1), Grouped(n2);
    var tail := w2 + "$" + g2;
    OneDollarAmount(w2, n2);
    assert tail[0] == w2[0];
    assert EndsNumber(tail);
    AmountsOfDollars(n1, tail);
    var rest := "$" + g1 + tail;
    assert Amounts(rest) == [n1 as real, n2 as real];
    AmountsSkipText(w1, rest);
    Regroup(w1, "$", g1, w2, "$", g2);
  }

  /** The amounts of "between $20,000 and $80,000", left to right. */
  lemma BetweenSpelled(q: string)
    requires q == "between " + "$" + "20,000" + " and " + "$" + "80,000"
    ensures q == "between " + "$" + Grouped(20000) + " and " + "$" + Grouped(80000)
  {
    Grouped20000();
    Grouped80000();
  }

  lemma BetweenWords()
    ensures Plain("between ") && Plain(" and ")
  {
  }

  lemma BetweenAmounts(q: string)
    requires q == "between " + "$" + "20,000" + " and " + "$" + "80,000"
    ensures Amounts(q) == [20000.0, 80000.0]
  {
    BetweenSpelled(q);
    BetweenWords();
    TwoDollarAmounts(q, "between ", 20000, " and ", 80000);
  }

  lemma {:induction false} BetweenLower(q: string)
    requires q == "between " + "$" + "20,000" + " and " + "$" + "80,000"
    ensures Lower(q) == q
  {
    LowerIdentity(q);
  }

  const BETWEEN_CHARS: set<char> := {'b', 'e', 't', 'w', 'n', ' ', '$', '2', '0', ',', 'a', 'd', '8'}

  /** The characters the question is made of. */
  lemma BetweenAlphabet(q: string)
    requires q == "between " + "$" + "20,000" + " and " + "$" + "80,000"
    ensures forall c :: c in q ==> c in BETWEEN_CHARS
  {
  }

  /** No cue of a family tested before this one occurs in a text made of the question's characters. */
  lemma BetweenEarlierCuesAbsent(q: string)
    requires forall c :: c in q ==> c in BETWEEN_CHARS
    ensures !Mentioned(q, OVER_CUES)
    ensures !Mentioned(q, UNDER_CUES)
  {
    NotMentioned(q, BETWEEN_CHARS, OVER_CUES, ['o', 'o', 'o', 'g', '>']);
    NotMentioned(q, BETWEEN_CHARS, UNDER_CUES, ['u', 'l', 'l', '<']);
  }

  lemma {:induction false} BetweenCues(q: string)
    requires q == "between " + "$" + "20,000" + " and " + "$" + "80,000"
    ensures CueOf(Lower(q)) == BetweenCue
  {
    BetweenLower(q);
    BetweenAlphabet(q);
    BetweenEarlierCuesAbsent(q);
    MentionedAtStart(q, BETWEEN_CUES, 0);
  }

  /** "between $20,000 and $80,000" searches for amounts from 20000 to 80000. */
  lemma {:induction false} BetweenExample(q: string)
    requires q == "between " + "$" + "20,000" + " and " + "$" + "80,000"
    ensures ParseQuery(q) == AmountRange(Some(20000.0), Some(80000.0))
  {
    BetweenAmounts(q);
    BetweenCues(q);
    assert Min(20000.0, 80000.0) == 20000.0;
  }

  lemma AroundSpelled(q: string)
    requires q == "around " + "$" + "25,000"
    ensures q == "around " + "$" + Grouped(25000)
    ensures Plain("around ")
  {
    Grouped25000();
  }

  lemma AroundAmounts(q: string)
    requires q == "around " + "$" + "25,000"
    ensures Amounts(q) == [25000.0]
  {
    AroundSpelled(q);
    OneDollarAmount("around ", 25000);
  }

  lemma {:induction false} AroundLower(q: string)
    requires q == "around " + "$" + "25,000"
    ensures Lower(q) == q
  {
    LowerIdentity(q);
  }

  const AROUND_CHARS: set<char> := {'a', 'r', 'o', 'u', 'n', 'd', ' ', '$', '2', '5', '0', ','}

  /** The characters the question is made of. */
  lemma AroundAlphabet(q: string)
    requires q == "around " + "$" + "25,000"
    ensures forall c :: c in q ==> c in AROUND_CHARS
  {
  }

  /** No cue of a family tested before this one occurs in a text made of the question's characters. */
  lemma AroundEarlierCuesAbsent(q: string)
    requires forall c :: c in q ==> c in AROUND_CHARS
    ensures !Mentioned(q, OVER_CUES)
    ensures !Mentioned(q, UNDER_CUES)
    ensures !Mentioned(q, BETWEEN_CUES)
  {
    NotMentioned(q, AROUND_CHARS, OVER_CUES, ['v', 'b', 'm', 'g', '>']);
    NotMentioned(q, AROUND_CHARS, UNDER_CUES, ['e', 'b', 'l', '<']);
    NotMentioned(q, AROUND_CHARS, BETWEEN_CUES, ['b', 'g', 'f']);
  }

  lemma {:induction false} AroundCues(q: string)
    requires q == "around " + "$" + "25,000"
    ensures CueOf(Lower(q)) == AroundCue
  {
    AroundLower(q);
    AroundAlphabet(q);
    AroundEarlierCuesAbsent(q);
    MentionedAtStart(q, AROUND_CUES, 0);
  }

  /** "around $25,000" searches the band of 10% around 25000. */
  lemma {:induction false} AroundExample(q: string)
    requires q == "around " + "$" + "25,000"
    ensures ParseQuery(q) == ApproximateAmount(Some(25000.0), DEFAULT_PERCENTAGE)
  {
    AroundAmounts(q);
    AroundCues(q);
  }

  lemma ExactlySpelled(q: string)
    requires q == "exactly " + "$" + "100,000"
    ensures q == "exactly " + "$" + Grouped(100000)
    ensures Plain("exactly ")
  {
    Grouped100000();
  }

  lemma ExactlyAmounts(q: string)
    requires q == "exactly " + "$" + "100,000"
    ensures Amounts(q) == [100000.0]
  {
    ExactlySpelled(q);
    OneDollarAmount("exactly ", 100000);
  }

  lemma {:induction false} ExactlyLower(q: string)
    requires q == "exactly " + "$" + "100,000"
    ensures Lower(q) == q
  {
    LowerIdentity(q);
  }

  const EXACTLY_CHARS: set<char> := {'e', 'x', 'a', 'c', 't', 'l', 'y', ' ', '$', '1', '0', ','}

  /** The characters the question is made of. */
  lemma ExactlyAlphabet(q: string)
    requires q == "exactly " + "$" + "100,000"
    ensures forall c :: c in q ==> c in EXACTLY_CHARS
  {
  }

  /** No cue of a family tested before this one occurs in a text made of the question's characters. */
  lemma ExactlyEarlierCuesAbsent(q: string)
    requires forall c :: c in q ==> c in EXACTLY_CHARS
    ensures !Mentioned(q, OVER_CUES)
    ensures !Mentioned(q, UNDER_CUES)
    ensures !Mentioned(q, BETWEEN_CUES)
    ensures !Mentioned(q, AROUND_CUES)
  {
    NotMentioned(q, EXACTLY_CHARS, OVER_CUES, ['o', 'o', 'o', 'g', '>']);
    NotMentioned(q, EXACTLY_CHARS, UNDER_CUES, ['u', 'b', 's', '<']);
    NotMentioned(q, EXACTLY_CHARS, BETWEEN_CUES, ['b', 'r', 'f']);
    NotMentioned(q, EXACTLY_CHARS, AROUND_CUES, ['r', 'b', 'p', 'r', '~']);
  }

  lemma {:induction false} ExactlyCues(q: string)
    requires q == "exactly " + "$" + "100,000"
    ensures CueOf(Lower(q)) == ExactCue
  {
    ExactlyLower(q);
    ExactlyAlphabet(q);
    ExactlyEarlierCuesAbsent(q);
    MentionedAtStart(q, EXACT_CUES, 0);
  }

  /** "exactly $100,000" searches for 100000 within the default tolerance. */
  lemma {:induction false} ExactlyExample(q: string)
    requires q == "exactly " + "$" + "100,000"
    ensures ParseQuery(q) == ExactAmount(Some(100000.0), DEFAULT_TOLERANCE)
  {
    ExactlyAmounts(q);
    ExactlyCues(q);
  }
}
