/**
 * A question of a poll as the editor submits it (`Item` and `Answers` in
 * src/live_poll.rs), the input from which the live slides are built.
 */
module Items {
  import opened Answers

  /**
   * The kind of answers a question takes. `Untyped` is the variant the slide
   * constructors refuse; the free-text variant carries the editor's sample
   * answers, which the live question does not use.
   */
  datatype ItemAnswers =
    | SingleChoice(choices: seq<Choice>)
    | FreeText(sampleAnswers: seq<string>)
    | Untyped

  datatype Item = Item(question: string, answers: ItemAnswers)
}
