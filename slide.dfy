/**
 * One slide of a running poll (src/slide.rs): its question, what kind of
 * answers it collects, and every participant's score on it.
 */
module Slides {
  import opened Wrappers
  import opened WordClouds
  import opened Answers
  import opened Items

  datatype SlideType =
    | EntrySlide
    | SingleChoice(mc: MultipleChoiceLiveAnswers)
    | FreeText(ft: FreeTextLiveAnswers)
    | FinalSlide

  /**
   * What the statistics view of a slide is drawn from: nothing for the entry
   * and final slides, the tallies with their denominator for a
   * multiple-choice question, the freshly laid-out words for a free-text one.
   */
  datatype Statistics =
    | NoStatistics
    | Bars(counts: seq<nat>, denominator: nat)
    | Cloud(words: seq<WordCloudObject>, containerHeight: real)

  /** The objects holding the answers of a slide of type `t`. */
  ghost function AnswerObjects(t: SlideType): set<object>
  {
    match t
    case SingleChoice(mc) => {mc}
    case FreeText(ft) => {ft, ft.wordCloud}
    case _ => {}
  }

  class Slide {
    const question: string
    const slideType: SlideType
    /** Every participant's score on this slide, by participant index. */
    var playerScores: seq<nat>

    /** The answers are consistent and there is one answer slot per participant. */
    ghost predicate Valid()
      reads this, AnswerObjects(slideType)
    {
      match slideType
      case SingleChoice(mc) => mc.Valid() && |mc.playerAnswers| == |playerScores|
      case FreeText(ft) => ft.Valid() && |ft.playerAnswers| == |playerScores|
      case _ => true
    }

    constructor (question: string, slideType: SlideType)
      ensures this.question == question && this.slideType == slideType
      ensures playerScores == []
    {
      this.question := question;
      this.slideType := slideType;
      playerScores := [];
    }

    /**
     * `from_item`: a single-choice item becomes a slide with every tally 0, a
     * free-text item one with an empty cloud, both without participants; an
     * untyped item becomes no slide.
     */
    static method FromItem(item: Item, maxFreeTextAnswers: nat) returns (r: Option<Slide>)
      ensures r.None? <==> item.answers.Untyped?
      ensures r.Some? ==>
        && fresh(r.value) && fresh(AnswerObjects(r.value.slideType))
        && r.value.Valid()
        && r.value.question == item.question
        && r.value.playerScores == []
      ensures r.Some? && item.answers.SingleChoice? ==>
        && r.value.slideType.SingleChoice?
        && r.value.slideType.mc.answers == item.answers.choices
        && r.value.slideType.mc.playerAnswers == []
        && |r.value.slideType.mc.answerCounts| == |item.answers.choices|
        && forall i :: 0 <= i < |item.answers.choices| ==> r.value.slideType.mc.answerCounts[i] == 0
      ensures r.Some? && item.answers.FreeText? ==>
        && r.value.slideType.FreeText?
        && r.value.slideType.ft.wordCloud.words == []
        && r.value.slideType.ft.playerAnswers == []
        && r.value.slideType.ft.maxAnswers == maxFreeTextAnswers
    {
      match item.answers
      case SingleChoice(choices) =>
        var mc := new MultipleChoiceLiveAnswers(choices);
        var s := new Slide(item.question, SlideType.SingleChoice(mc));
        return Some(s);
      case FreeText(_) =>
        var ft := new FreeTextLiveAnswers(maxFreeTextAnswers);
        var s := new Slide(item.question, SlideType.FreeText(ft));
        return Some(s);
      case Untyped =>
        return None;
    }

    /** `create_join_slide`: the entry slide, with no question and no participants. */
    static method CreateJoinSlide() returns (s: Slide)
      ensures fresh(s) && s.Valid()
      ensures s.question == "" && s.slideType == EntrySlide && s.playerScores == []
    {
      s := new Slide("", EntrySlide);
    }

    /** `create_final_slide`: the final slide, with no question and no participants. */
    static method CreateFinalSlide() returns (s: Slide)
      ensures fresh(s) && s.Valid()
      ensures s.question == "" && s.slideType == FinalSlide && s.playerScores == []
    {
      s := new Slide("", FinalSlide);
    }

    /**
     * `add_player`: the new participant scores 0 and gets an empty answer
     * slot on a question slide, so the per-participant lists stay aligned.
     */
    method AddPlayer()
      requires Valid()
      modifies this, AnswerObjects(slideType)
      ensures Valid()
      ensures playerScores == old(playerScores) + [0]
      ensures slideType.SingleChoice? ==>
        && slideType.mc.playerAnswers == old(slideType.mc.playerAnswers) + [None]
        && slideType.mc.answerCounts == old(slideType.mc.answerCounts)
      ensures slideType.FreeText? ==>
        && slideType.ft.playerAnswers == old(slideType.ft.playerAnswers) + [[]]
        && slideType.ft.wordCloud.words == old(slideType.ft.wordCloud.words)
    {
      playerScores := playerScores + [0];
      match slideType
      case SingleChoice(mc) =>
        mc.AddPlayer();
      case FreeText(ft) =>
        ft.AddPlayer();
      case _ =>
    }

    /** `submit_score`: overwrites the score of one participant and nothing else. */
    method SubmitScore(playerIndex: nat, score: nat)
      requires Valid()
      requires playerIndex < |playerScores|
      modifies this
      ensures Valid()
      ensures playerScores == old(playerScores)[playerIndex := score]
    {
      playerScores := playerScores[playerIndex := score];
    }

    /**
     * `render_statistics`: a multiple-choice slide is drawn from its tallies
     * and their denominator; a free-text slide lays out its cloud, is drawn
     * from that layout and then has the layout remembered as the starting
     * point of the next transition.
     */
    method RenderStatistics() returns (st: Statistics)
      requires Valid()
      modifies AnswerObjects(slideType)
      ensures Valid()
      ensures slideType.EntrySlide? || slideType.FinalSlide? ==> st == NoStatistics
      ensures slideType.SingleChoice? ==>
        && st == Bars(slideType.mc.answerCounts, StatisticsDenominator(slideType.mc.answerCounts))
        && slideType.mc.answerCounts == old(slideType.mc.answerCounts)
        && slideType.mc.playerAnswers == old(slideType.mc.playerAnswers)
      ensures slideType.FreeText? ==>
        var before := old(slideType.ft.wordCloud.words);
        var after := slideType.ft.wordCloud.words;
        && st.Cloud?
        && |st.words| == |before| == |after|
        && (forall i :: 0 <= i < |before| ==> Restyled(before[i], st.words[i], i, Denominator(before)))
        && Stacked(st.words)
        && st.containerHeight == ContainerHeight(st.words)
        && (forall i :: 0 <= i < |after| ==>
              after[i] == st.words[i].(previousTopRem := Some(st.words[i].topRem),
                                       previousFontSizeRem := Some(st.words[i].fontSizeRem)))
        && slideType.ft.playerAnswers == old(slideType.ft.playerAnswers)
    {
      match slideType
      case SingleChoice(mc) =>
        return Bars(mc.answerCounts, StatisticsDenominator(mc.answerCounts));
      case FreeText(ft) =>
        var height := ft.wordCloud.Render();
        var words := ft.wordCloud.words;
        ft.wordCloud.SavePrevious();
        SameEntriesTotal(old(ft.wordCloud.words), words);
        SameEntriesTotal(words, ft.wordCloud.words);
        return Cloud(words, height);
      case _ =>
        return NoStatistics;
    }
  }
}
