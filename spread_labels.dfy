/** Which of the words "Call", "Put", "Bull" and "Bear" the catalog's spread
    names contain once a time frame is appended: the spread class chooses its
    legs and signs by these words. */
module SpreadLabels {
  import opened Text
  import Spread

  /** A time frame, as far as the spread names' words are concerned: it holds
      none of the letters 'B', 'C', 'P' and 'l'. */
  predicate PlainTail(tail: string)
  {
    'B' !in tail && 'C' !in tail && 'P' !in tail && 'l' !in tail
  }

  /** A word holding a letter that neither the title nor the tail holds is not in the name. */
  lemma LabelLacksLetter(title: string, tail: string, w: string, c: char)
    requires c in w && c != ' ' && c != '-' && c !in title && c !in tail
    ensures !Contains(title + " - " + tail, w)
  {
    MissingCharNotContained(title + " - " + tail, w, c);
  }

  /** A word whose first letter appears in the name only at its head, and whose
      `k`-th letter differs from the title's, is not in the name. */
  lemma LabelHeadOnly(title: string, more: string, tail: string, w: string, k: nat)
    requires 1 <= k < |w| && title == [w[0]] + more && k <= |more| && more[k - 1] != w[k]
    requires w[0] != ' ' && w[0] != '-' && w[0] !in more && w[0] !in tail
    ensures !Contains(title + " - " + tail, w)
  {
    var rest := more + " - ";
    assert title + " - " + tail == [w[0]] + rest + tail;
    assert rest[k - 1] == more[k - 1];
    HeadWordNotContained(rest, tail, w, k);
  }

  /** The words "Call", "Put", "Bull" and "Bear" in a catalog spread name
      (label, " - ", time frame), read off letter by letter: for each label, the
      letters it lacks, then which words it holds. */
  lemma BullCallLetters()
    ensures 'P' !in "Bull Call Spread"
    ensures "Bull Call Spread" == ['B'] + "ull Call Spread" && 'B' !in "ull Call Spread"
  {
  }

  lemma BullCallWords(tail: string)
    requires PlainTail(tail)
    ensures var name := "Bull Call Spread" + " - " + tail;
      Contains(name, "Bull Call")
      && Contains(name, "Call")
      && !Contains(name, "Put")
      && Contains(name, "Bull")
      && !Contains(name, "Bear")
  {
    BullCallLetters();
    var name := "Bull Call Spread" + " - " + tail;
    assert Contains(name, "Bull Call") by {
      assert name == "Bull Call" + (" Spread - " + tail);
      ContainsPrefix("Bull Call", " Spread - " + tail);
    }
    assert Contains(name, "Bull") && Contains(name, "Call") by { Spread.LabelWords(name); }
    LabelLacksLetter("Bull Call Spread", tail, "Put", 'P');
    LabelHeadOnly("Bull Call Spread", "ull Call Spread", tail, "Bear", 1);
  }

  lemma BearCallLetters()
    ensures 'P' !in "Bear Call Spread"
    ensures "Bear Call Spread" == ['B'] + "ear Call Spread" && 'B' !in "ear Call Spread"
  {
  }

  lemma BearCallWords(tail: string)
    requires PlainTail(tail)
    ensures var name := "Bear Call Spread" + " - " + tail;
      Contains(name, "Bear Call")
      && Contains(name, "Call")
      && !Contains(name, "Put")
      && !Contains(name, "Bull")
      && Contains(name, "Bear")
  {
    BearCallLetters();
    var name := "Bear Call Spread" + " - " + tail;
    assert Contains(name, "Bear Call") by {
      assert name == "Bear Call" + (" Spread - " + tail);
      ContainsPrefix("Bear Call", " Spread - " + tail);
    }
    assert Contains(name, "Bear") && Contains(name, "Call") by { Spread.LabelWords(name); }
    LabelLacksLetter("Bear Call Spread", tail, "Put", 'P');
    LabelHeadOnly("Bear Call Spread", "ear Call Spread", tail, "Bull", 1);
  }

  lemma BullPutLetters()
    ensures 'C' !in "Bull Put Spread"
    ensures "Bull Put Spread" == ['B'] + "ull Put Spread" && 'B' !in "ull Put Spread"
  {
  }

  lemma BullPutWords(tail: string)
    requires PlainTail(tail)
    ensures var name := "Bull Put Spread" + " - " + tail;
      Contains(name, "Bull Put")
      && !Contains(name, "Call")
      && Contains(name, "Put")
      && Contains(name, "Bull")
      && !Contains(name, "Bear")
  {
    BullPutLetters();
    var name := "Bull Put Spread" + " - " + tail;
    assert Contains(name, "Bull Put") by {
      assert name == "Bull Put" + (" Spread - " + tail);
      ContainsPrefix("Bull Put", " Spread - " + tail);
    }
    assert Contains(name, "Bull") && Contains(name, "Put") by { Spread.LabelWords(name); }
    LabelLacksLetter("Bull Put Spread", tail, "Call", 'C');
    LabelHeadOnly("Bull Put Spread", "ull Put Spread", tail, "Bear", 1);
  }

  lemma BearPutLetters()
    ensures 'C' !in "Bear Put Spread"
    ensures "Bear Put Spread" == ['B'] + "ear Put Spread" && 'B' !in "ear Put Spread"
  {
  }

  lemma BearPutWords(tail: string)
    requires PlainTail(tail)
    ensures var name := "Bear Put Spread" + " - " + tail;
      Contains(name, "Bear Put")
      && !Contains(name, "Call")
      && Contains(name, "Put")
      && !Contains(name, "Bull")
      && Contains(name, "Bear")
  {
    BearPutLetters();
    var name := "Bear Put Spread" + " - " + tail;
    assert Contains(name, "Bear Put") by {
      assert name == "Bear Put" + (" Spread - " + tail);
      ContainsPrefix("Bear Put", " Spread - " + tail);
    }
    assert Contains(name, "Bear") && Contains(name, "Put") by { Spread.LabelWords(name); }
    LabelLacksLetter("Bear Put Spread", tail, "Call", 'C');
    LabelHeadOnly("Bear Put Spread", "ear Put Spread", tail, "Bull", 1);
  }

  lemma CalendarLetters()
    ensures 'B' !in "Calendar Spread" && 'P' !in "Calendar Spread"
    ensures "Calendar Spread" == ['C'] + "alendar Spread" && 'C' !in "alendar Spread"
  {
  }

  lemma CalendarWords(tail: string)
    requires PlainTail(tail)
    ensures var name := "Calendar Spread" + " - " + tail;
      !Contains(name, "Call")
      && !Contains(name, "Put")
      && !Contains(name, "Bull")
      && !Contains(name, "Bear")
  {
    CalendarLetters();
    LabelHeadOnly("Calendar Spread", "alendar Spread", tail, "Call", 3);
    LabelLacksLetter("Calendar Spread", tail, "Put", 'P');
    LabelLacksLetter("Calendar Spread", tail, "Bull", 'B');
    LabelLacksLetter("Calendar Spread", tail, "Bear", 'B');
  }

  lemma RatioLetters()
    ensures 'B' !in "Ratio Spread" && 'C' !in "Ratio Spread" && 'P' !in "Ratio Spread"
  {
  }

  lemma RatioWords(tail: string)
    requires PlainTail(tail)
    ensures var name := "Ratio Spread" + " - " + tail;
      !Contains(name, "Call")
      && !Contains(name, "Put")
      && !Contains(name, "Bull")
      && !Contains(name, "Bear")
  {
    RatioLetters();
    LabelLacksLetter("Ratio Spread", tail, "Call", 'C');
    LabelLacksLetter("Ratio Spread", tail, "Put", 'P');
    LabelLacksLetter("Ratio Spread", tail, "Bull", 'B');
    LabelLacksLetter("Ratio Spread", tail, "Bear", 'B');
  }

  lemma BackRatioLetters()
    ensures 'C' !in "Back Ratio Spread" && 'P' !in "Back Ratio Spread"
    ensures "Back Ratio Spread" == ['B'] + "ack Ratio Spread" && 'B' !in "ack Ratio Spread"
  {
  }

  lemma BackRatioWords(tail: string)
    requires PlainTail(tail)
    ensures var name := "Back Ratio Spread" + " - " + tail;
      !Contains(name, "Call")
      && !Contains(name, "Put")
      && !Contains(name, "Bull")
      && !Contains(name, "Bear")
  {
    BackRatioLetters();
    LabelLacksLetter("Back Ratio Spread", tail, "Call", 'C');
    LabelLacksLetter("Back Ratio Spread", tail, "Put", 'P');
    LabelHeadOnly("Back Ratio Spread", "ack Ratio Spread", tail, "Bull", 1);
    LabelHeadOnly("Back Ratio Spread", "ack Ratio Spread", tail, "Bear", 1);
  }

  lemma IronCondorLetters()
    ensures 'B' !in "Iron Condor" && 'P' !in "Iron Condor" && 'l' !in "Iron Condor"
  {
  }

  lemma IronCondorWords(tail: string)
    requires PlainTail(tail)
    ensures var name := "Iron Condor" + " - " + tail;
      !Contains(name, "Call")
      && !Contains(name, "Put")
      && !Contains(name, "Bull")
      && !Contains(name, "Bear")
  {
    IronCondorLetters();
    LabelLacksLetter("Iron Condor", tail, "Call", 'l');
    LabelLacksLetter("Iron Condor", tail, "Put", 'P');
    LabelLacksLetter("Iron Condor", tail, "Bull", 'B');
    LabelLacksLetter("Iron Condor", tail, "Bear", 'B');
  }

  lemma ButterflyLetters()
    ensures 'C' !in "Butterfly Spread" && 'P' !in "Butterfly Spread"
    ensures "Butterfly Spread" == ['B'] + "utterfly Spread" && 'B' !in "utterfly Spread"
  {
  }

  lemma ButterflyWords(tail: string)
    requires PlainTail(tail)
    ensures var name := "Butterfly Spread" + " - " + tail;
      !Contains(name, "Call")
      && !Contains(name, "Put")
      && !Contains(name, "Bull")
      && !Contains(name, "Bear")
  {
    ButterflyLetters();
    LabelLacksLetter("Butterfly Spread", tail, "Call", 'C');
    LabelLacksLetter("Butterfly Spread", tail, "Put", 'P');
    LabelHeadOnly("Butterfly Spread", "utterfly Spread", tail, "Bull", 2);
    LabelHeadOnly("Butterfly Spread", "utterfly Spread", tail, "Bear", 1);
  }
}
