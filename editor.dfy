/**
 * The browser-side poll editor (src/static/custom.js): its pure helpers for
 * characters, slides and polls, and the Alpine component whose methods move
 * the active slide and start a poll.
 */
module Editor {
  import opened Wrappers

  /** A UTF-16 code unit, what `charCodeAt` reads and `String.fromCharCode` takes. */
  type CodeUnit = x: int | 0 <= x < 0x1_0000

  /** JavaScript strings are sequences of UTF-16 code units. */
  type JsString = seq<CodeUnit>

  /**
   * `incrementChar`: the one-unit string whose code is the first unit's code
   * plus `add`, reduced modulo 2^16 as `String.fromCharCode` does. On an empty
   * string `charCodeAt(0)` is NaN and `fromCharCode(NaN)` is the unit 0.
   */
  function IncrementChar(c: JsString, add: int): (r: JsString)
    ensures |r| == 1
    ensures |c| > 0 ==> (r[0] - (c[0] + add)) % 0x1_0000 == 0
    ensures |c| == 0 ==> r[0] == 0
  {
    if |c| == 0 then [0] else [(c[0] + add) % 0x1_0000]
  }

  /** Moving by `add` and back by `-add` restores the first unit. */
  lemma IncrementCharInverse(c: JsString, add: int)
    requires |c| > 0
    ensures IncrementChar(IncrementChar(c, add), -add) == c[..1]
  {
    var m := 0x1_0000;
    var u := (c[0] + add) % m;
    assert c[0] + add == ((c[0] + add) / m) * m + u;
    var v := (u - add) % m;
    assert u - add == c[0] - ((c[0] + add) / m) * m;
    assert v == c[0];
  }

  /** A slide in the editor; the answer lists hold the entered answer texts. */
  datatype Slide = Slide(kind: JsString, question: JsString, mcAnswers: seq<JsString>, ftAnswers: seq<JsString>)

  /** The poll being edited. */
  datatype Poll = Poll(slides: seq<Slide>, enableLeaderboard: bool, allowCustomNames: bool, activeSlide: int)

  /** `"undefined"`, the type a slide gets before one is chosen. */
  const UNDEFINED: JsString := [0x75, 0x6e, 0x64, 0x65, 0x66, 0x69, 0x6e, 0x65, 0x64]
  /** `"firstSlide"` */
  const FIRST_SLIDE: JsString := [0x66, 0x69, 0x72, 0x73, 0x74, 0x53, 0x6c, 0x69, 0x64, 0x65]
  /** `"lastSlide"` */
  const LAST_SLIDE: JsString := [0x6c, 0x61, 0x73, 0x74, 0x53, 0x6c, 0x69, 0x64, 0x65]
  /** `"1234"`, the join code shown once a poll is started. */
  const PLACEHOLDER_CODE: JsString := [0x31, 0x32, 0x33, 0x34]

  /** `createSlide`: `None` stands for `null`, which becomes the type "undefined". */
  function CreateSlide(kind: Option<JsString>): (s: Slide)
    ensures kind.None? ==> s.kind == UNDEFINED
    ensures kind.Some? ==> s.kind == kind.value
    ensures s.question == [] && s.mcAnswers == [] && s.ftAnswers == []
  {
    Slide(if kind.None? then UNDEFINED else kind.value, [], [], [])
  }

  /** `createPoll`: an entry slide, one untyped slide and a final slide; the untyped one is active. */
  function CreatePoll(): (p: Poll)
    ensures |p.slides| == 3
    ensures p.slides[0].kind == FIRST_SLIDE && p.slides[1].kind == UNDEFINED && p.slides[2].kind == LAST_SLIDE
    ensures p.activeSlide == 1 && p.slides[p.activeSlide] == CreateSlide(None)
    ensures !p.enableLeaderboard && !p.allowCustomNames
  {
    Poll([CreateSlide(Some(FIRST_SLIDE)), CreateSlide(None), CreateSlide(Some(LAST_SLIDE))], false, false, 1)
  }

  /** The index `gotoSlide` stores: `Math.max(0, Math.min(i, len - 1))`. */
  function Clamp(i: int, len: int): (r: int)
    ensures r >= 0
    ensures len >= 1 ==> r < len
    ensures r <= i || r == 0
  {
    Max(0, Min(i, len - 1))
  }

  /** `Math.min` on integers. */
  function Min(a: int, b: int): int { if a <= b then a else b }

  /** `Math.max` on integers. */
  function Max(a: int, b: int): int { if a >= b then a else b }

  /** On a non-empty poll an index is kept exactly when it names a slide. */
  lemma ClampKeepsValidIndex(i: int, len: int)
    requires len >= 1
    ensures Clamp(i, len) == i <==> 0 <= i < len
  {
  }

  /** Clamping an index already clamped changes nothing: going to a slide twice is going there once. */
  lemma ClampIdempotent(i: int, len: int)
    ensures Clamp(Clamp(i, len), len) == Clamp(i, len)
  {
  }

  /** Stepping right then left from a slide other than the last returns to it. */
  lemma StepRightThenLeft(i: int, len: int)
    requires 0 <= i < len - 1
    ensures Clamp(Clamp(i + 1, len) - 1, len) == i
  {
  }

  /** Stepping right from the last slide stays there; stepping left from the first stays there. */
  lemma StepsSaturate(len: int)
    requires len >= 1
    ensures Clamp(len - 1 + 1, len) == len - 1
    ensures Clamp(0 - 1, len) == 0
  {
  }

  /** The `code` of a keyboard event, as far as the handler tells codes apart. */
  datatype KeyCode = ArrowRight | ArrowLeft | OtherKey

  /** The Alpine `poll` component: the poll, whether it is live, its code and the stored copy. */
  class PollEditor {
    var poll: Poll
    var isLive: bool
    var code: Option<JsString>
    /** The `"poll"` entry of `localStorage`, written by `save`. */
    var stored: Option<Poll>

    /** The component's initial state: the stored poll if there is one, else a new poll. */
    constructor(stored: Option<Poll>)
      ensures this.stored == stored
      ensures poll == (if stored.Some? then stored.value else CreatePoll())
      ensures !isLive && code.None?
    {
      this.stored := stored;
      poll := if stored.Some? then stored.value else CreatePoll();
      isLive := false;
      code := None;
    }

    /** `save`: the poll is written to storage. */
    method Save()
      modifies this
      ensures stored == Some(poll)
      ensures poll == old(poll) && isLive == old(isLive) && code == old(code)
    {
      stored := Some(poll);
    }

    /** `gotoSlide`: the clamped index becomes the active slide, and the poll is saved. */
    method GotoSlide(slideIndex: int)
      modifies this
      ensures poll == old(poll).(activeSlide := Clamp(slideIndex, |old(poll).slides|))
      ensures stored == Some(poll)
      ensures isLive == old(isLive) && code == old(code)
    {
      var index := Clamp(slideIndex, |poll.slides|);
      poll := poll.(activeSlide := index);
      Save();
    }

    /** The `keyup` listener: arrows pressed on the page body move one slide; anything else is ignored. */
    method KeyUp(targetIsBody: bool, key: KeyCode)
      modifies this
      ensures targetIsBody && key == ArrowRight ==>
        poll == old(poll).(activeSlide := Clamp(old(poll).activeSlide + 1, |old(poll).slides|)) && stored == Some(poll)
      ensures targetIsBody && key == ArrowLeft ==>
        poll == old(poll).(activeSlide := Clamp(old(poll).activeSlide - 1, |old(poll).slides|)) && stored == Some(poll)
      ensures !targetIsBody || key == OtherKey ==> poll == old(poll) && stored == old(stored)
      ensures isLive == old(isLive) && code == old(code)
    {
      if targetIsBody {
        if key == ArrowRight {
          GotoSlide(poll.activeSlide + 1);
        } else if key == ArrowLeft {
          GotoSlide(poll.activeSlide - 1);
        }
      }
    }

    /** `startPoll`: the poll goes live under the placeholder code, whatever the server replies. */
    method StartPoll()
      modifies this
      ensures isLive && code == Some(PLACEHOLDER_CODE)
      ensures poll == old(poll) && stored == old(stored)
    {
      isLive := true;
      code := Some(PLACEHOLDER_CODE);
    }
  }
}
