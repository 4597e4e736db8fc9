/**
 * The answer bookkeeping of one question while a poll is live: the
 * multiple-choice tallies with each participant's choice and score, and the
 * free-text answers that feed a word cloud (`MultipleChoiceLiveAnswers` and
 * `FreeTextLiveAnswers`, declared identically in src/slide.rs and
 * src/live_item.rs).
 */
module Answers {
  import opened Wrappers
  import opened AppErrors
  import opened WordClouds

  /** An answer option of a multiple-choice question: its text and whether it is correct. */
  datatype Choice = Choice(text: string, isCorrect: bool)

  /** A correct answer earns full points only if given at once; after this many milliseconds it earns half. */
  const SCORE_WINDOW_MILLIS: nat := 60000

  const ANSWER_OUT_OF_BOUNDS: string := "Answer index out of bounds"
  const ALREADY_ANSWERED: string := "Already submitted an answers"
  /** The `{}` is part of the message: it is built with `to_string`, not `format!`. */
  const TOO_MANY_FREE_TEXT_ANSWERS: string :=
    "Already submitted the maximum number of free text answers ({})"

  /**
   * The points for an answer given `elapsedMillis` after the question opened:
   * nothing for a wrong answer; for a right one 50 plus the truncated share of
   * 50 that the unused part of the one-minute window represents.
   */
  function Score(isCorrect: bool, elapsedMillis: nat): (s: nat)
    ensures !isCorrect ==> s == 0
    ensures isCorrect ==> 50 <= s <= 100
    ensures isCorrect && elapsedMillis == 0 ==> s == 100
    ensures isCorrect && elapsedMillis >= SCORE_WINDOW_MILLIS ==> s == 50
  {
    if !isCorrect then 0
    else
      var elapsed := if elapsedMillis > SCORE_WINDOW_MILLIS then SCORE_WINDOW_MILLIS else elapsedMillis;
      50 + ((SCORE_WINDOW_MILLIS - elapsed) * 50) / SCORE_WINDOW_MILLIS
  }

  /** Answering sooner never earns fewer points. */
  lemma ScoreMonotone(e1: nat, e2: nat)
    requires e1 <= e2
    ensures Score(true, e2) <= Score(true, e1)
  {
  }

  /** How many participants chose option `i`. */
  function Chose(players: seq<Option<nat>>, i: nat): (n: nat)
    ensures n <= |players|
  {
    if players == [] then 0
    else Chose(players[..|players| - 1], i) + (if players[|players| - 1] == Some(i) then 1 else 0)
  }

  /** A participant who had not answered choosing `a` adds one to the tally of `a` only. */
  lemma {:induction false} ChoseAfterAnswer(players: seq<Option<nat>>, p: nat, a: nat, i: nat)
    requires p < |players| && players[p].None?
    ensures Chose(players[p := Some(a)], i) == Chose(players, i) + (if i == a then 1 else 0)
  {
    var q := players[p := Some(a)];
    var n := |players| - 1;
    if p < n {
      assert q[..n] == players[..n][p := Some(a)];
      ChoseAfterAnswer(players[..n], p, a, i);
    } else {
      assert q[..n] == players[..n];
    }
  }

  /** A participant joining with no answer changes no tally. */
  lemma ChoseAfterJoin(players: seq<Option<nat>>, i: nat)
    ensures Chose(players + [None], i) == Chose(players, i)
  {
    assert (players + [None])[..|players|] == players;
  }

  /** Participants with no answer yet contribute to no tally. */
  lemma {:induction false} ChoseNone(players: seq<Option<nat>>, i: nat)
    requires forall p :: 0 <= p < |players| ==> players[p].None?
    ensures Chose(players, i) == 0
  {
    if players != [] {
      ChoseNone(players[..|players| - 1], i);
    }
  }

  /**
   * The bar heights of the statistics view are relative to this: the largest
   * tally, or 1 when there are no options or no answers yet.
   */
  function StatisticsDenominator(counts: seq<nat>): (m: nat)
    ensures m >= 1
    ensures forall i :: 0 <= i < |counts| ==> counts[i] <= m
    ensures m == 1 || exists i :: 0 <= i < |counts| && counts[i] == m
  {
    if counts == [] then 1
    else
      var m := StatisticsDenominator(counts[..|counts| - 1]);
      var last := counts[|counts| - 1];
      assert forall i :: 0 <= i < |counts| - 1 ==> counts[..|counts| - 1][i] == counts[i];
      if last > m then last else m
  }

  /**
   * The height of option `count`'s bar in percent of the chart: its share of
   * the denominator, but never below 2% so that empty options stay visible.
   */
  function BarHeightPercent(count: nat, denominator: nat): (h: real)
    requires denominator > 0
    ensures 2.0 <= h
    ensures count <= denominator ==> h <= 100.0
    ensures count == denominator ==> h == 100.0
  {
    var share := (count as real / denominator as real) * 100.0;
    assert count <= denominator ==> count as real / denominator as real <= 1.0;
    if share > 2.0 then share else 2.0
  }

  /** Answers to one multiple-choice question. */
  class MultipleChoiceLiveAnswers {
    /** The options, in display order. */
    const answers: seq<Choice>
    /** How many participants chose each option. */
    var answerCounts: seq<nat>
    /** The option each participant chose, by participant index. */
    var playerAnswers: seq<Option<nat>>

    /** Every tally counts exactly the participants who chose that option. */
    ghost predicate Valid()
      reads this
    {
      && |answerCounts| == |answers|
      && (forall p :: 0 <= p < |playerAnswers| && playerAnswers[p].Some? ==> playerAnswers[p].value < |answers|)
      && (forall i :: 0 <= i < |answers| ==> answerCounts[i] == Chose(playerAnswers, i))
    }

    /** The answers part of `from_item` for a single-choice item: every tally 0, no participants. */
    constructor (answers: seq<Choice>)
      ensures Valid()
      ensures this.answers == answers
      ensures |answerCounts| == |answers| && forall i :: 0 <= i < |answers| ==> answerCounts[i] == 0
      ensures playerAnswers == []
    {
      this.answers := answers;
      answerCounts := seq(|answers|, _ => 0);
      playerAnswers := [];
    }

    /** One more participant, who has not answered. */
    method AddPlayer()
      requires Valid()
      modifies this
      ensures Valid()
      ensures playerAnswers == old(playerAnswers) + [None]
      ensures answerCounts == old(answerCounts)
    {
      forall i | 0 <= i < |answers|
        ensures Chose(playerAnswers + [None], i) == Chose(playerAnswers, i)
      {
        ChoseAfterJoin(playerAnswers, i);
      }
      playerAnswers := playerAnswers + [None];
    }

    /**
     * `submit_answer`: an option index past the end is refused first, then a
     * participant who already answered; otherwise the choice is recorded, its
     * tally goes up by one and the score is returned.
     */
    method SubmitAnswer(playerIndex: nat, answerIndex: nat, elapsedMillis: nat) returns (r: Result<nat, AppError>)
      requires Valid()
      requires answerIndex < |answers| ==> playerIndex < |playerAnswers|
      modifies this
      ensures Valid()
      ensures answerIndex >= |answers| ==> r == Err(BadRequest(ANSWER_OUT_OF_BOUNDS))
      ensures answerIndex < |answers| && old(playerAnswers[playerIndex]).Some? ==>
        r == Err(BadRequest(ALREADY_ANSWERED))
      ensures r.Err? ==> playerAnswers == old(playerAnswers) && answerCounts == old(answerCounts)
      ensures r.Ok? <==> answerIndex < |answers| && old(playerAnswers[playerIndex]).None?
      ensures r.Ok? ==>
        && playerAnswers == old(playerAnswers)[playerIndex := Some(answerIndex)]
        && answerCounts == old(answerCounts)[answerIndex := old(answerCounts)[answerIndex] + 1]
        && r.value == Score(answers[answerIndex].isCorrect, elapsedMillis)
    {
      if answerIndex >= |answers| {
        return Err(BadRequest(ANSWER_OUT_OF_BOUNDS));
      }
      if playerAnswers[playerIndex].Some? {
        return Err(BadRequest(ALREADY_ANSWERED));
      }
      forall i | 0 <= i < |answers|
        ensures Chose(playerAnswers[playerIndex := Some(answerIndex)], i)
             == Chose(playerAnswers, i) + (if i == answerIndex then 1 else 0)
      {
        ChoseAfterAnswer(playerAnswers, playerIndex, answerIndex, i);
      }
      playerAnswers := playerAnswers[playerIndex := Some(answerIndex)];
      answerCounts := answerCounts[answerIndex := answerCounts[answerIndex] + 1];
      return Ok(Score(answers[answerIndex].isCorrect, elapsedMillis));
    }
  }

  /** The number of free-text answers submitted by all participants together. */
  function Submitted(players: seq<seq<string>>): (n: nat)
    ensures players == [] ==> n == 0
  {
    if players == [] then 0
    else Submitted(players[..|players| - 1]) + |players[|players| - 1]|
  }

  /** Replacing one participant's answers changes the total by the difference in their number. */
  lemma {:induction false} SubmittedAfterUpdate(players: seq<seq<string>>, p: nat, answers: seq<string>)
    requires p < |players|
    ensures Submitted(players[p := answers]) + |players[p]| == Submitted(players) + |answers|
  {
    var q := players[p := answers];
    var n := |players| - 1;
    if p < n {
      assert q[..n] == players[..n][p := answers];
      SubmittedAfterUpdate(players[..n], p, answers);
    } else {
      assert q[..n] == players[..n];
    }
  }

  /** Answers to one free-text question. */
  class FreeTextLiveAnswers {
    /** How many answers one participant may give (`MAX_FREE_TEXT_ANSWERS`). */
    const maxAnswers: nat
    const wordCloud: WordCloud
    /** The answers each participant gave, as typed, by participant index. */
    var playerAnswers: seq<seq<string>>

    /**
     * The cloud is well formed, nobody exceeds the cap, and the cloud has
     * counted every answer submitted, exactly once.
     */
    ghost predicate Valid()
      reads this, wordCloud
    {
      && wordCloud.Valid()
      && (forall p :: 0 <= p < |playerAnswers| ==> |playerAnswers[p]| <= maxAnswers)
      && Total(wordCloud.words) == Submitted(playerAnswers)
    }

    /** The answers part of `from_item` for a free-text item: an empty cloud, no participants. */
    constructor (maxAnswers: nat)
      ensures Valid()
      ensures this.maxAnswers == maxAnswers
      ensures fresh(wordCloud) && wordCloud.words == []
      ensures playerAnswers == []
    {
      this.maxAnswers := maxAnswers;
      wordCloud := new WordCloud();
      playerAnswers := [];
    }

    /** One more participant, with no answers. */
    method AddPlayer()
      requires Valid()
      modifies this
      ensures Valid()
      ensures playerAnswers == old(playerAnswers) + [[]]
    {
      assert (playerAnswers + [[]])[..|playerAnswers|] == playerAnswers;
      playerAnswers := playerAnswers + [[]];
    }

    /**
     * `submit_answer`: a participant who already gave `maxAnswers` answers is
     * refused; otherwise the answer is counted in the cloud and appended to
     * the participant's list.
     */
    method SubmitAnswer(playerIndex: nat, answer: string) returns (r: Result<(), AppError>)
      requires Valid()
      requires playerIndex < |playerAnswers|
      modifies this, wordCloud
      ensures Valid()
      ensures r.Err? <==> |old(playerAnswers[playerIndex])| >= maxAnswers
      ensures r.Err? ==> r.error == BadRequest(TOO_MANY_FREE_TEXT_ANSWERS)
      ensures r.Err? ==> playerAnswers == old(playerAnswers) && wordCloud.words == old(wordCloud.words)
      ensures r.Ok? ==>
        && wordCloud.words == InsertText(old(wordCloud.words), Normalise(answer))
        && playerAnswers == old(playerAnswers)[playerIndex := old(playerAnswers[playerIndex]) + [answer]]
    {
      if |playerAnswers[playerIndex]| >= maxAnswers {
        return Err(BadRequest(TOO_MANY_FREE_TEXT_ANSWERS));
      }
      InsertTextCounts(wordCloud.words, Normalise(answer), "");
      wordCloud.Insert(answer);
      SubmittedAfterUpdate(playerAnswers, playerIndex, playerAnswers[playerIndex] + [answer]);
      playerAnswers := playerAnswers[playerIndex := playerAnswers[playerIndex] + [answer]];
      return Ok(());
    }
  }
}
