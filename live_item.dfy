/**
 * One item of a running poll in its later form (src/live_item.rs): the same
 * bookkeeping as a slide, with a join-code item in place of the entry and
 * final slides.
 */
module LiveItems {
  import opened Wrappers
  import opened WordClouds
  import opened Answers
  import opened Items
  import Slides

  /** The join-code item only shows how to join; it takes no answers. */
  datatype LiveAnswers =
    | JoinCode
    | SingleChoice(mc: MultipleChoiceLiveAnswers)
    | FreeText(ft: FreeTextLiveAnswers)

  /**
   * The contents of an item's answers: what every participant answered, and
   * the tallies or the word cloud built from it.
   */
  datatype AnswerState =
    | ChoiceState(chosen: seq<Option<nat>>, counts: seq<nat>)
    | TextState(texts: seq<seq<string>>, words: seq<WordCloudObject>)
    | NoAnswerState

  /**
   * The contents once a new participant's empty slot is appended: no choice,
   * or no texts. Tallies and the cloud stay as they are.
   */
  function WithEmptySlot(s: AnswerState): (r: AnswerState)
    ensures r.ChoiceState? <==> s.ChoiceState?
    ensures r.TextState? <==> s.TextState?
    ensures r.ChoiceState? ==> r.chosen == s.chosen + [None] && r.counts == s.counts
    ensures r.TextState? ==> r.texts == s.texts + [[]] && r.words == s.words
    ensures r.NoAnswerState? ==> r == s
  {
    match s
    case ChoiceState(chosen, counts) => ChoiceState(chosen + [None], counts)
    case TextState(texts, words) => TextState(texts + [[]], words)
    case NoAnswerState => s
  }

  /** The objects holding the answers of an item of kind `a`. */
  ghost function AnswerObjects(a: LiveAnswers): set<object>
  {
    match a
    case SingleChoice(mc) => {mc}
    case FreeText(ft) => {ft, ft.wordCloud}
    case JoinCode => {}
  }

  class LiveItem {
    const question: string
    const answers: LiveAnswers
    /** Every participant's score on this item, by participant index. */
    var playerScores: seq<nat>

    /** The answers are consistent (tallies match choices, the cloud matches the answers). */
    ghost predicate Valid()
      reads this, AnswerObjects(answers)
    {
      match answers
      case SingleChoice(mc) => mc.Valid()
      case FreeText(ft) => ft.Valid()
      case JoinCode => true
    }

    /** The number of participants the item keeps an answer slot for; none for the join code. */
    ghost function AnswerSlots(): nat
      reads this, AnswerObjects(answers)
    {
      match answers
      case SingleChoice(mc) => |mc.playerAnswers|
      case FreeText(ft) => |ft.playerAnswers|
      case JoinCode => 0
    }

    /** What the item's answer objects hold now. */
    ghost function State(): AnswerState
      reads AnswerObjects(answers)
    {
      match answers
      case SingleChoice(mc) => ChoiceState(mc.playerAnswers, mc.answerCounts)
      case FreeText(ft) => TextState(ft.playerAnswers, ft.wordCloud.words)
      case JoinCode => NoAnswerState
    }

    constructor (question: string, answers: LiveAnswers)
      ensures this.question == question && this.answers == answers
      ensures playerScores == []
    {
      this.question := question;
      this.answers := answers;
      playerScores := [];
    }

    /**
     * `from_item`: a single-choice item gets every tally 0, a free-text item
     * an empty cloud, both without participants; an untyped item gives none.
     */
    static method FromItem(item: Item, maxFreeTextAnswers: nat) returns (r: Option<LiveItem>)
      ensures r.None? <==> item.answers.Untyped?
      ensures r.Some? ==>
        && fresh(r.value) && fresh(AnswerObjects(r.value.answers))
        && r.value.Valid() && r.value.AnswerSlots() == 0
        && r.value.question == item.question
        && r.value.playerScores == []
      ensures r.Some? && item.answers.SingleChoice? ==>
        && r.value.answers.SingleChoice?
        && r.value.answers.mc.answers == item.answers.choices
        && |r.value.answers.mc.answerCounts| == |item.answers.choices|
        && forall i :: 0 <= i < |item.answers.choices| ==> r.value.answers.mc.answerCounts[i] == 0
      ensures r.Some? && item.answers.FreeText? ==>
        && r.value.answers.FreeText?
        && r.value.answers.ft.wordCloud.words == []
        && r.value.answers.ft.maxAnswers == maxFreeTextAnswers
    {
      match item.answers
      case SingleChoice(choices) =>
        var mc := new MultipleChoiceLiveAnswers(choices);
        var it := new LiveItem(item.question, LiveAnswers.SingleChoice(mc));
        return Some(it);
      case FreeText(_) =>
        var ft := new FreeTextLiveAnswers(maxFreeTextAnswers);
        var it := new LiveItem(item.question, LiveAnswers.FreeText(ft));
        return Some(it);
      case Untyped =>
        return None;
    }

    /** `new_join_item`: the join-code item, with no question and no scores. */
    static method NewJoinItem() returns (it: LiveItem)
      ensures fresh(it) && it.Valid() && it.AnswerSlots() == 0
      ensures it.question == "" && it.answers == JoinCode && it.playerScores == []
    {
      it := new LiveItem("", JoinCode);
    }

    /**
     * `add_player`: the new participant scores 0 and, except on the join
     * code, gets an empty answer slot.
     */
    method AddPlayer()
      requires Valid()
      modifies this, AnswerObjects(answers)
      ensures Valid()
      ensures playerScores == old(playerScores) + [0]
      ensures !answers.JoinCode? ==> AnswerSlots() == old(AnswerSlots()) + 1
      ensures answers.SingleChoice? ==>
        && answers.mc.playerAnswers == old(answers.mc.playerAnswers) + [None]
        && answers.mc.answerCounts == old(answers.mc.answerCounts)
      ensures answers.FreeText? ==>
        && answers.ft.playerAnswers == old(answers.ft.playerAnswers) + [[]]
        && answers.ft.wordCloud.words == old(answers.ft.wordCloud.words)
    {
      playerScores := playerScores + [0];
      PushAnswerSlot();
    }

    /**
     * The empty answer slot for a new participant, the part of joining a
     * poll that touches each item; the scores are left as they are.
     */
    method PushAnswerSlot()
      requires Valid()
      modifies AnswerObjects(answers)
      ensures Valid()
      ensures !answers.JoinCode? ==> AnswerSlots() == old(AnswerSlots()) + 1
      ensures answers.JoinCode? ==> AnswerSlots() == old(AnswerSlots())
      ensures State() == WithEmptySlot(old(State()))
    {
      match answers
      case SingleChoice(mc) =>
        mc.AddPlayer();
      case FreeText(ft) =>
        ft.AddPlayer();
      case JoinCode =>
    }

    /** `submit_score`: overwrites the score of one participant and nothing else. */
    method SubmitScore(playerIndex: nat, score: nat)
      requires playerIndex < |playerScores|
      modifies this
      ensures playerScores == old(playerScores)[playerIndex := score]
    {
      playerScores := playerScores[playerIndex := score];
    }

    /**
     * `render_statistics`: as for a slide; the join code has no statistics.
     */
    method RenderStatistics() returns (st: Slides.Statistics)
      requires Valid()
      modifies AnswerObjects(answers)
      ensures Valid()
      ensures answers.JoinCode? ==> st == Slides.NoStatistics
      ensures answers.SingleChoice? ==>
        && st == Slides.Bars(answers.mc.answerCounts, StatisticsDenominator(answers.mc.answerCounts))
        && answers.mc.answerCounts == old(answers.mc.answerCounts)
        && answers.mc.playerAnswers == old(answers.mc.playerAnswers)
      ensures answers.FreeText? ==>
        var before := old(answers.ft.wordCloud.words);
        var after := answers.ft.wordCloud.words;
        && st.Cloud?
        && |st.words| == |before| == |after|
        && (forall i :: 0 <= i < |before| ==> Restyled(before[i], st.words[i], i, Denominator(before)))
        && Stacked(st.words)
        && st.containerHeight == ContainerHeight(st.words)
        && (forall i :: 0 <= i < |after| ==>
              after[i] == st.words[i].(previousTopRem := Some(st.words[i].topRem),
                                       previousFontSizeRem := Some(st.words[i].fontSizeRem)))
        && answers.ft.playerAnswers == old(answers.ft.playerAnswers)
    {
      match answers
      case SingleChoice(mc) =>
        return Slides.Bars(mc.answerCounts, StatisticsDenominator(mc.answerCounts));
      case FreeText(ft) =>
        var height := ft.wordCloud.Render();
        var words := ft.wordCloud.words;
        ft.wordCloud.SavePrevious();
        SameEntriesTotal(old(ft.wordCloud.words), words);
        SameEntriesTotal(words, ft.wordCloud.words);
        return Slides.Cloud(words, height);
      case JoinCode =>
        return Slides.NoStatistics;
    }
  }
}
