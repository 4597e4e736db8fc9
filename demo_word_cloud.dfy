/**
 * The demo word cloud on the landing page (src/landing_page.rs): thirteen
 * answers counted one after the other, and the table they leave behind.
 * The landing page's answers are six distinct texts that are already
 * trimmed, short and lower-case, so normalising leaves each of them as is.
 */
module DemoWordCloud {
  import opened Sequences
  import opened WordClouds

  /** The table as its texts and counts, in order. */
  function Entries(ws: seq<WordCloudObject>): (r: seq<(string, nat)>)
    ensures |r| == |ws|
    ensures forall i :: 0 <= i < |ws| ==> r[i] == (ws[i].text, ws[i].count)
  {
    seq(|ws|, i requires 0 <= i < |ws| => (ws[i].text, ws[i].count))
  }

  /** A text not yet in the table is appended with count 1. */
  lemma InsertNewEntries(ws: seq<WordCloudObject>, t: string)
    requires forall j :: 0 <= j < |ws| ==> ws[j].text != t
    ensures Entries(InsertText(ws, t)) == Entries(ws) + [(t, 1)]
  {
  }

  /**
   * The text at `sp` counted once more moves to `tp`, the first index
   * holding its old count, and the entries from `tp` on shift down by one.
   */
  lemma InsertKnownEntries(ws: seq<WordCloudObject>, sp: nat, tp: nat)
    requires tp <= sp < |ws|
    requires forall j :: 0 <= j < sp ==> ws[j].text != ws[sp].text
    requires ws[tp].count == ws[sp].count
    requires forall j :: 0 <= j < tp ==> ws[j].count != ws[sp].count
    ensures Entries(InsertText(ws, ws[sp].text)) ==
      Entries(ws)[..tp] + [(ws[sp].text, ws[sp].count + 1)] + Entries(ws)[tp..sp] + Entries(ws)[sp + 1..]
  {
    var r := InsertKnownMoves(ws, sp, tp);
    var e := Entries(ws);
    var x := e[..tp] + [(ws[sp].text, ws[sp].count + 1)] + e[tp..sp] + e[sp + 1..];
    forall i | 0 <= i < |r|
      ensures Entries(r)[i] == x[i]
    {
      MovedIndex(e, (ws[sp].text, ws[sp].count + 1), sp, tp, i);
    }
  }

  /** An element of `e` with the one at `sp` replaced by `p` and moved to `tp`. */
  lemma MovedIndex<T>(e: seq<T>, p: T, sp: nat, tp: nat, i: nat)
    requires tp <= sp < |e| && i < |e|
    ensures |e[..tp] + [p] + e[tp..sp] + e[sp + 1..]| == |e|
    ensures (e[..tp] + [p] + e[tp..sp] + e[sp + 1..])[i] ==
      if i < tp then e[i] else if i == tp then p else if i <= sp then e[i - 1] else e[i]
  {
    var x := e[..tp] + [p] + e[tp..sp] + e[sp + 1..];
    if tp < i <= sp {
      assert x[i] == e[tp..sp][i - tp - 1];
    } else if sp < i {
      assert x[i] == e[sp + 1..][i - sp - 1];
    }
  }

  /** The table after counting the text at `sp` once more, entry by entry. */
  lemma InsertKnownMoves(ws: seq<WordCloudObject>, sp: nat, tp: nat) returns (r: seq<WordCloudObject>)
    requires tp <= sp < |ws|
    requires forall j :: 0 <= j < sp ==> ws[j].text != ws[sp].text
    requires ws[tp].count == ws[sp].count
    requires forall j :: 0 <= j < tp ==> ws[j].count != ws[sp].count
    ensures r == InsertText(ws, ws[sp].text)
    ensures |r| == |ws|
    ensures forall i :: 0 <= i < tp ==> r[i] == ws[i]
    ensures r[tp] == ws[sp].(count := ws[sp].count + 1)
    ensures forall i :: tp < i <= sp ==> r[i] == ws[i - 1]
    ensures forall i :: sp < i < |ws| ==> r[i] == ws[i]
  {
    var t := ws[sp].text;
    PositionIs(ws, HasText(t), sp);
    var bumped := Bump(ws, sp);
    if tp < sp {
      PositionIs(bumped, HasCount(ws[sp].count), tp);
      r := MoveTo(bumped, sp, tp);
    } else {
      assert forall j :: 0 <= j < sp ==> !HasCount(ws[sp].count)(bumped[j]);
      r := bumped;
    }
  }

  /** The table after `insert` has been called with each answer in turn. */
  function CountAnswers(ws: seq<WordCloudObject>, answers: seq<string>): seq<WordCloudObject>
    decreases |answers|
  {
    if answers == [] then ws else CountAnswers(InsertText(ws, Normalise(answers[0])), answers[1..])
  }

  /** The same for texts that are already normalised. */
  function CountTexts(ws: seq<WordCloudObject>, texts: seq<string>): seq<WordCloudObject>
    decreases |texts|
  {
    if texts == [] then ws else CountTexts(InsertText(ws, texts[0]), texts[1..])
  }

  /** Answers that normalise to themselves are counted under themselves. */
  lemma {:induction false} CountNormalised(ws: seq<WordCloudObject>, answers: seq<string>)
    requires forall x :: x in answers ==> Normalise(x) == x
    ensures CountAnswers(ws, answers) == CountTexts(ws, answers)
    decreases |answers|
  {
    if answers != [] {
      assert answers[0] in answers;
      CountNormalised(InsertText(ws, answers[0]), answers[1..]);
    }
  }

  /** Six pairwise distinct texts. */
  predicate Distinct6(a: string, b: string, c: string, d: string, e: string, f: string)
  {
    && a != b && a != c && a != d && a != e && a != f
    && b != c && b != d && b != e && b != f
    && c != d && c != e && c != f
    && d != e && d != f
    && e != f
  }

  /**
   * The landing page's answers, with a = "didn't learn yet", b = "well
   * prepared", c = "stressed", d = "what exam", e = "don't care" and f = "no
   * time to learn": counted from an empty table they leave "well prepared" 4,
   * "stressed" 3, "no time to learn" 2, "what exam" 2, "didn't learn yet" 1
   * and "don't care" 1, in this order.
   */
  lemma DemoOrder(a: string, b: string, c: string, d: string, e: string, f: string)
    requires Distinct6(a, b, c, d, e, f)
    requires Normalise(a) == a && Normalise(b) == b && Normalise(c) == c
    requires Normalise(d) == d && Normalise(e) == e && Normalise(f) == f
    ensures Entries(CountAnswers([], [a, b, c, b, c, d, c, e, f, f, d, b, b]))
      == [(b, 4), (c, 3), (f, 2), (d, 2), (a, 1), (e, 1)]
  {
    var answers := [a, b, c, b, c, d, c, e, f, f, d, b, b];
    DemoAnswersNormalised(a, b, c, d, e, f);
    CountNormalised([], answers);
    DemoStep0([], a, b, c, d, e, f);
  }

  /** Every answer of the demo normalises to itself when the six texts do. */
  lemma DemoAnswersNormalised(a: string, b: string, c: string, d: string, e: string, f: string)
    requires Normalise(a) == a && Normalise(b) == b && Normalise(c) == c
    requires Normalise(d) == d && Normalise(e) == e && Normalise(f) == f
    ensures forall x :: x in [a, b, c, b, c, d, c, e, f, f, d, b, b] ==> Normalise(x) == x
  {
    forall x | x in [a, b, c, b, c, d, c, e, f, f, d, b, b]
      ensures Normalise(x) == x
    {
      assert x == a || x == b || x == c || x == d || x == e || x == f;
    }
  }

  // One lemma per answer: the table before it, and the final table.

  lemma DemoStep0(ws: seq<WordCloudObject>, a: string, b: string, c: string, d: string, e: string, f: string)
    requires Distinct6(a, b, c, d, e, f)
    requires Entries(ws) == []
    ensures Entries(CountTexts(ws, [a, b, c, b, c, d, c, e, f, f, d, b, b])) == [(b, 4), (c, 3), (f, 2), (d, 2), (a, 1), (e, 1)]
  {
    InsertNewEntries(ws, a);
    DemoStep1(InsertText(ws, a), a, b, c, d, e, f);
  }

  lemma DemoStep1(ws: seq<WordCloudObject>, a: string, b: string, c: string, d: string, e: string, f: string)
    requires Distinct6(a, b, c, d, e, f)
    requires Entries(ws) == [(a, 1)]
    ensures Entries(CountTexts(ws, [b, c, b, c, d, c, e, f, f, d, b, b])) == [(b, 4), (c, 3), (f, 2), (d, 2), (a, 1), (e, 1)]
  {
    InsertNewEntries(ws, b);
    DemoStep2(InsertText(ws, b), a, b, c, d, e, f);
  }

  lemma DemoStep2(ws: seq<WordCloudObject>, a: string, b: string, c: string, d: string, e: string, f: string)
    requires Distinct6(a, b, c, d, e, f)
    requires Entries(ws) == [(a, 1), (b, 1)]
    ensures Entries(CountTexts(ws, [c, b, c, d, c, e, f, f, d, b, b])) == [(b, 4), (c, 3), (f, 2), (d, 2), (a, 1), (e, 1)]
  {
    InsertNewEntries(ws, c);
    DemoStep3(InsertText(ws, c), a, b, c, d, e, f);
  }

  lemma DemoStep3(ws: seq<WordCloudObject>, a: string, b: string, c: string, d: string, e: string, f: string)
    requires Distinct6(a, b, c, d, e, f)
    requires Entries(ws) == [(a, 1), (b, 1), (c, 1)]
    ensures Entries(CountTexts(ws, [b, c, d, c, e, f, f, d, b, b])) == [(b, 4), (c, 3), (f, 2), (d, 2), (a, 1), (e, 1)]
  {
    InsertKnownEntries(ws, 1, 0);
    DemoStep4(InsertText(ws, b), a, b, c, d, e, f);
  }

  lemma DemoStep4(ws: seq<WordCloudObject>, a: string, b: string, c: string, d: string, e: string, f: string)
    requires Distinct6(a, b, c, d, e, f)
    requires Entries(ws) == [(b, 2), (a, 1), (c, 1)]
    ensures Entries(CountTexts(ws, [c, d, c, e, f, f, d, b, b])) == [(b, 4), (c, 3), (f, 2), (d, 2), (a, 1), (e, 1)]
  {
    InsertKnownEntries(ws, 2, 1);
    DemoStep5(InsertText(ws, c), a, b, c, d, e, f);
  }

  lemma DemoStep5(ws: seq<WordCloudObject>, a: string, b: string, c: string, d: string, e: string, f: string)
    requires Distinct6(a, b, c, d, e, f)
    requires Entries(ws) == [(b, 2), (c, 2), (a, 1)]
    ensures Entries(CountTexts(ws, [d, c, e, f, f, d, b, b])) == [(b, 4), (c, 3), (f, 2), (d, 2), (a, 1), (e, 1)]
  {
    InsertNewEntries(ws, d);
    DemoStep6(InsertText(ws, d), a, b, c, d, e, f);
  }

  lemma DemoStep6(ws: seq<WordCloudObject>, a: string, b: string, c: string, d: string, e: string, f: string)
    requires Distinct6(a, b, c, d, e, f)
    requires Entries(ws) == [(b, 2), (c, 2), (a, 1), (d, 1)]
    ensures Entries(CountTexts(ws, [c, e, f, f, d, b, b])) == [(b, 4), (c, 3), (f, 2), (d, 2), (a, 1), (e, 1)]
  {
    InsertKnownEntries(ws, 1, 0);
    DemoStep7(InsertText(ws, c), a, b, c, d, e, f);
  }

  lemma DemoStep7(ws: seq<WordCloudObject>, a: string, b: string, c: string, d: string, e: string, f: string)
    requires Distinct6(a, b, c, d, e, f)
    requires Entries(ws) == [(c, 3), (b, 2), (a, 1), (d, 1)]
    ensures Entries(CountTexts(ws, [e, f, f, d, b, b])) == [(b, 4), (c, 3), (f, 2), (d, 2), (a, 1), (e, 1)]
  {
    InsertNewEntries(ws, e);
    DemoStep8(InsertText(ws, e), a, b, c, d, e, f);
  }

  lemma DemoStep8(ws: seq<WordCloudObject>, a: string, b: string, c: string, d: string, e: string, f: string)
    requires Distinct6(a, b, c, d, e, f)
    requires Entries(ws) == [(c, 3), (b, 2), (a, 1), (d, 1), (e, 1)]
    ensures Entries(CountTexts(ws, [f, f, d, b, b])) == [(b, 4), (c, 3), (f, 2), (d, 2), (a, 1), (e, 1)]
  {
    InsertNewEntries(ws, f);
    DemoStep9(InsertText(ws, f), a, b, c, d, e, f);
  }

  lemma DemoStep9(ws: seq<WordCloudObject>, a: string, b: string, c: string, d: string, e: string, f: string)
    requires Distinct6(a, b, c, d, e, f)
    requires Entries(ws) == [(c, 3), (b, 2), (a, 1), (d, 1), (e, 1), (f, 1)]
    ensures Entries(CountTexts(ws, [f, d, b, b])) == [(b, 4), (c, 3), (f, 2), (d, 2), (a, 1), (e, 1)]
  {
    InsertKnownEntries(ws, 5, 2);
    DemoStep10(InsertText(ws, f), a, b, c, d, e, f);
  }

  lemma DemoStep10(ws: seq<WordCloudObject>, a: string, b: string, c: string, d: string, e: string, f: string)
    requires Distinct6(a, b, c, d, e, f)
    requires Entries(ws) == [(c, 3), (b, 2), (f, 2), (a, 1), (d, 1), (e, 1)]
    ensures Entries(CountTexts(ws, [d, b, b])) == [(b, 4), (c, 3), (f, 2), (d, 2), (a, 1), (e, 1)]
  {
    InsertKnownEntries(ws, 4, 3);
    DemoStep11(InsertText(ws, d), a, b, c, d, e, f);
  }

  lemma DemoStep11(ws: seq<WordCloudObject>, a: string, b: string, c: string, d: string, e: string, f: string)
    requires Distinct6(a, b, c, d, e, f)
    requires Entries(ws) == [(c, 3), (b, 2), (f, 2), (d, 2), (a, 1), (e, 1)]
    ensures Entries(CountTexts(ws, [b, b])) == [(b, 4), (c, 3), (f, 2), (d, 2), (a, 1), (e, 1)]
  {
    InsertKnownEntries(ws, 1, 1);
    DemoStep12(InsertText(ws, b), a, b, c, d, e, f);
  }

  lemma DemoStep12(ws: seq<WordCloudObject>, a: string, b: string, c: string, d: string, e: string, f: string)
    requires Distinct6(a, b, c, d, e, f)
    requires Entries(ws) == [(c, 3), (b, 3), (f, 2), (d, 2), (a, 1), (e, 1)]
    ensures Entries(CountTexts(ws, [b])) == [(b, 4), (c, 3), (f, 2), (d, 2), (a, 1), (e, 1)]
  {
    InsertKnownEntries(ws, 1, 0);
  }
}
