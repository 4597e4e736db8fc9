/**
 * The free-text answer frequency table behind the word cloud
 * (src/word_cloud.rs): normalised answers with their counts, kept in
 * non-increasing count order, and the vertical one-word-per-line layout
 * that `render` computes for them.
 */
module WordClouds {
  import opened Wrappers
  import opened Sequences

  /** The text colours assigned to the words, cyclically by position. */
  const WORD_CLOUD_COLORS: seq<string> :=
    ["#f43f5e", "#0891b2", "#84cc16", "#c026d3", "#4b5563", "#14b8a6"]

  /** Vertical space between two stacked words, in rem. */
  const VERTICAL_WORD_GAP_REM: real := 0.75

  /** An answer is cut to this many characters before it is counted. */
  const MAX_WORD_CHARS: nat := 64

  /** The colour a word has before its first render. */
  const INITIAL_COLOR: string := "#000000"

  /** One distinct answer, its count and its styling; sizes and offsets are in rem. */
  datatype WordCloudObject = WordCloudObject(
    text: string,
    count: nat,
    fontSizeRem: real,
    topRem: real,
    colorCode: string,
    previousFontSizeRem: Option<real>,
    previousTopRem: Option<real>,
    previousColorCode: Option<string>)

  /** The entry `insert` appends for an answer seen for the first time. */
  function NewWord(text: string): WordCloudObject
  {
    WordCloudObject(text, 1, 0.0, 0.0, INITIAL_COLOR, None, None, None)
  }

  // ---------------------------------------------------------------------------
  // Normalisation of an answer: trim, cut to 64 characters, lowercase.
  // ---------------------------------------------------------------------------

  /** Rust's `char::is_whitespace`: the Unicode White_Space property. */
  predicate IsWhitespace(c: char)
  {
    || ('\t' <= c <= '\r')
    || c == ' '
    || c == '\U{0085}'
    || c == '\U{00A0}'
    || c == '\U{1680}'
    || ('\U{2000}' <= c <= '\U{200A}')
    || c == '\U{2028}'
    || c == '\U{2029}'
    || c == '\U{202F}'
    || c == '\U{205F}'
    || c == '\U{3000}'
  }

  /** `str::trim_start`: drops the leading whitespace and nothing else. */
  function TrimStart(s: string): (r: string)
    ensures |r| <= |s| && r == s[|s| - |r|..]
    ensures forall i :: 0 <= i < |s| - |r| ==> IsWhitespace(s[i])
    ensures r != [] ==> !IsWhitespace(r[0])
  {
    if s != [] && IsWhitespace(s[0]) then TrimStart(s[1..]) else s
  }

  /** `str::trim_end`: drops the trailing whitespace and nothing else. */
  function TrimEnd(s: string): (r: string)
    ensures |r| <= |s| && r == s[..|r|]
    ensures forall i :: |r| <= i < |s| ==> IsWhitespace(s[i])
    ensures r != [] ==> !IsWhitespace(r[|r| - 1])
  {
    if s != [] && IsWhitespace(s[|s| - 1]) then TrimEnd(s[..|s| - 1]) else s
  }

  /** `str::trim`. */
  function Trim(s: string): string
  {
    TrimEnd(TrimStart(s))
  }

  /**
   * `truncate_chars`: the string itself when it has at most `maxChars`
   * characters, otherwise its first `maxChars` characters.
   */
  function TruncateChars(s: string, maxChars: nat): (r: string)
    ensures |r| == if |s| <= maxChars then |s| else maxChars
    ensures r == s[..|r|]
  {
    if |s| <= maxChars then s else s[..maxChars]
  }

  predicate IsAsciiUpper(c: char)
  {
    'A' <= c <= 'Z'
  }

  function ToLowerChar(c: char): char
  {
    if IsAsciiUpper(c) then (c as int - 'A' as int + 'a' as int) as char else c
  }

  /** `str::to_lowercase`, restricted to the ASCII letters. */
  function ToLowercase(s: string): string
  {
    seq(|s|, i requires 0 <= i < |s| => ToLowerChar(s[i]))
  }

  /** The text under which `insert` counts an answer. */
  function Normalise(answer: string): (r: string)
    ensures |r| <= MAX_WORD_CHARS
    ensures forall i :: 0 <= i < |r| ==> !IsAsciiUpper(r[i])
    ensures r != [] ==> !IsWhitespace(r[0])
    ensures |r| == if |Trim(answer)| <= MAX_WORD_CHARS then |Trim(answer)| else MAX_WORD_CHARS
    ensures r == ToLowercase(Trim(answer)[..|r|])
  {
    ToLowercase(TruncateChars(Trim(answer), MAX_WORD_CHARS))
  }

  /**
   * Normalising twice is not the same as normalising once: cutting a trimmed
   * answer at 64 characters can leave a trailing space, which a second pass
   * trims, so the stored text of a long answer may end in whitespace.
   */
  lemma NormaliseNotIdempotent()
    ensures exists s :: Normalise(Normalise(s)) != Normalise(s)
  {
    var s := seq(63, _ => 'a') + [' ', 'b'];
    var n1 := Normalise(s);
    assert Trim(s) == s by {
      assert TrimStart(s) == s;
      assert s[|s| - 1] == 'b';
    }
    assert |n1| == 64 && n1[63] == ' ';
    var t := Trim(n1);
    assert |TrimStart(n1)| == 64 by {
      assert n1[0] == 'a';
    }
    assert |t| == 63 by {
      assert n1[62] == 'a';
    }
    assert |Normalise(n1)| == 63;
  }

  // ---------------------------------------------------------------------------
  // Searching and moving entries.
  // ---------------------------------------------------------------------------

  function HasText(t: string): WordCloudObject -> bool
  {
    (w: WordCloudObject) => w.text == t
  }

  function HasCount(c: nat): WordCloudObject -> bool
  {
    (w: WordCloudObject) => w.count == c
  }

  /**
   * `Vec::remove(from)` followed by `Vec::insert(to, _)` with `to < from`:
   * the element at `from` moves to `to`, the ones in between shift up by one.
   */
  function MoveTo<T>(s: seq<T>, from: nat, to: nat): (r: seq<T>)
    requires to < from < |s|
    ensures |r| == |s|
    ensures forall i :: 0 <= i < to ==> r[i] == s[i]
    ensures r[to] == s[from]
    ensures forall i :: to < i <= from ==> r[i] == s[i - 1]
    ensures forall i :: from < i < |r| ==> r[i] == s[i]
    ensures multiset(r) == multiset(s)
  {
    var r := s[..to] + [s[from]] + s[to..from] + s[from + 1..];
    assert s == s[..to] + s[to..from] + [s[from]] + s[from + 1..];
    r
  }

  // ---------------------------------------------------------------------------
  // The table as a value, and what `insert` does to it.
  // ---------------------------------------------------------------------------

  /** Counts never increase along the table. */
  ghost predicate Sorted(ws: seq<WordCloudObject>)
  {
    forall i, j :: 0 <= i < j < |ws| ==> ws[i].count >= ws[j].count
  }

  /** No text occurs twice. */
  ghost predicate DistinctTexts(ws: seq<WordCloudObject>)
  {
    forall i, j :: 0 <= i < j < |ws| ==> ws[i].text != ws[j].text
  }

  /** Every entry has been counted at least once. */
  ghost predicate Positive(ws: seq<WordCloudObject>)
  {
    forall i :: 0 <= i < |ws| ==> ws[i].count >= 1
  }

  /** The invariant every table reached by `insert` keeps. */
  ghost predicate WellFormed(ws: seq<WordCloudObject>)
  {
    && Sorted(ws)
    && DistinctTexts(ws)
    && Positive(ws)
    && (forall i :: 0 <= i < |ws| ==> |ws[i].text| <= MAX_WORD_CHARS)
  }

  /** The entry at `k` with its count raised by one (`count += 1`). */
  function Bump(ws: seq<WordCloudObject>, k: nat): (r: seq<WordCloudObject>)
    requires k < |ws|
    ensures |r| == |ws|
    ensures r[k] == ws[k].(count := ws[k].count + 1)
    ensures forall j :: 0 <= j < |ws| && j != k ==> r[j] == ws[j]
  {
    ws[k := ws[k].(count := ws[k].count + 1)]
  }

  /**
   * The table after `insert` has counted the normalised text `t`: a known
   * text has its count raised and moves to the first index holding its old
   * count when that index is earlier; a new text is appended with count 1.
   */
  function InsertText(ws: seq<WordCloudObject>, t: string): seq<WordCloudObject>
  {
    var found := Position(ws, HasText(t));
    if found.None? then ws + [NewWord(t)]
    else
      var sp := found.value;
      var target := Position(Bump(ws, sp), HasCount(ws[sp].count));
      if target.Some? && target.value < sp then MoveTo(Bump(ws, sp), sp, target.value)
      else Bump(ws, sp)
  }

  /** The number of answers counted under text `u`. */
  function CountOf(ws: seq<WordCloudObject>, u: string): nat
  {
    if ws == [] then 0
    else (if ws[0].text == u then ws[0].count else 0) + CountOf(ws[1..], u)
  }

  /** The number of answers counted in all. */
  function Total(ws: seq<WordCloudObject>): nat
  {
    if ws == [] then 0 else ws[0].count + Total(ws[1..])
  }

  /** The entries whose text is not `t`, in table order. */
  function Others(ws: seq<WordCloudObject>, t: string): seq<WordCloudObject>
  {
    if ws == [] then []
    else (if ws[0].text == t then [] else [ws[0]]) + Others(ws[1..], t)
  }

  lemma {:induction false} SplitSums(a: seq<WordCloudObject>, b: seq<WordCloudObject>, u: string)
    ensures CountOf(a + b, u) == CountOf(a, u) + CountOf(b, u)
    ensures Total(a + b) == Total(a) + Total(b)
    ensures Others(a + b, u) == Others(a, u) + Others(b, u)
  {
    if a != [] {
      assert (a + b)[1..] == a[1..] + b;
      SplitSums(a[1..], b, u);
    } else {
      assert a + b == b;
    }
  }

  /** Splits a table around index `k`, for the three measures above. */
  lemma SplitAt(ws: seq<WordCloudObject>, k: nat, u: string)
    requires k < |ws|
    ensures CountOf(ws, u) == CountOf(ws[..k], u) + CountOf([ws[k]], u) + CountOf(ws[k + 1..], u)
    ensures Total(ws) == Total(ws[..k]) + ws[k].count + Total(ws[k + 1..])
    ensures Others(ws, u) == Others(ws[..k], u) + Others([ws[k]], u) + Others(ws[k + 1..], u)
  {
    assert ws == ws[..k] + [ws[k]] + ws[k + 1..];
    SplitSums(ws[..k] + [ws[k]], ws[k + 1..], u);
    SplitSums(ws[..k], [ws[k]], u);
    assert Total([ws[k]]) == ws[k].count by {
      assert [ws[k]][1..] == [];
    }
  }

  /** Moving an entry changes none of the three measures. */
  lemma MoveToKeepsSums(s: seq<WordCloudObject>, from: nat, to: nat, u: string)
    requires to < from < |s|
    ensures CountOf(MoveTo(s, from, to), u) == CountOf(s, u)
    ensures Total(MoveTo(s, from, to)) == Total(s)
    ensures s[from].text == u ==> Others(MoveTo(s, from, to), u) == Others(s, u)
  {
    var a, x, b, c := s[..to], [s[from]], s[to..from], s[from + 1..];
    assert MoveTo(s, from, to) == a + x + b + c;
    assert s == a + b + x + c;
    SplitSums(a + x + b, c, u);
    SplitSums(a + x, b, u);
    SplitSums(a, x, u);
    SplitSums(a + b + x, c, u);
    SplitSums(a + b, x, u);
    SplitSums(a, b, u);
  }

  /** Bumping the count of an entry with text `t` at index `k`. */
  lemma BumpSums(ws: seq<WordCloudObject>, k: nat, t: string, u: string)
    requires k < |ws| && ws[k].text == t
    ensures CountOf(Bump(ws, k), u) == CountOf(ws, u) + (if u == t then 1 else 0)
    ensures Total(Bump(ws, k)) == Total(ws) + 1
    ensures Others(Bump(ws, k), t) == Others(ws, t)
  {
    var b := Bump(ws, k);
    assert b[..k] == ws[..k] && b[k + 1..] == ws[k + 1..];
    SplitAt(ws, k, u);
    SplitAt(b, k, u);
    SplitAt(ws, k, t);
    SplitAt(b, k, t);
    assert [b[k]][1..] == [] && [ws[k]][1..] == [];
  }

  /** Appending a new entry for `t`. */
  lemma AppendSums(ws: seq<WordCloudObject>, t: string, u: string)
    ensures CountOf(ws + [NewWord(t)], u) == CountOf(ws, u) + (if u == t then 1 else 0)
    ensures Total(ws + [NewWord(t)]) == Total(ws) + 1
    ensures Others(ws + [NewWord(t)], t) == Others(ws, t)
  {
    SplitSums(ws, [NewWord(t)], u);
    SplitSums(ws, [NewWord(t)], t);
    assert [NewWord(t)][1..] == [];
  }

  /**
   * Each `insert` counts exactly one more answer: the count under `t` rises
   * by one, the count under every other text is unchanged, so the total
   * rises by exactly one.
   */
  lemma InsertTextCounts(ws: seq<WordCloudObject>, t: string, u: string)
    ensures CountOf(InsertText(ws, t), u) == CountOf(ws, u) + (if u == t then 1 else 0)
    ensures Total(InsertText(ws, t)) == Total(ws) + 1
  {
    var found := Position(ws, HasText(t));
    if found.None? {
      AppendSums(ws, t, u);
    } else {
      var sp := found.value;
      var b := Bump(ws, sp);
      BumpSums(ws, sp, t, u);
      var target := Position(b, HasCount(ws[sp].count));
      if target.Some? && target.value < sp {
        MoveToKeepsSums(b, sp, target.value, u);
      }
    }
  }

  /** The entries for other texts keep their contents and their relative order. */
  lemma InsertTextKeepsOthers(ws: seq<WordCloudObject>, t: string)
    ensures Others(InsertText(ws, t), t) == Others(ws, t)
  {
    var found := Position(ws, HasText(t));
    if found.None? {
      AppendSums(ws, t, t);
    } else {
      var sp := found.value;
      var b := Bump(ws, sp);
      BumpSums(ws, sp, t, t);
      var target := Position(b, HasCount(ws[sp].count));
      if target.Some? && target.value < sp {
        MoveToKeepsSums(b, sp, target.value, t);
      }
    }
  }

  /** Before the first entry holding count `c`, a sorted table holds only larger counts. */
  lemma BeforeCount(ws: seq<WordCloudObject>, sp: nat, c: nat, k: nat)
    requires Sorted(ws) && sp < |ws| && ws[sp].count == c
    requires k <= sp
    requires forall j :: 0 <= j < k ==> !HasCount(c)(Bump(ws, sp)[j])
    ensures forall j :: 0 <= j < k ==> ws[j].count > c
  {
    forall j | 0 <= j < k
      ensures ws[j].count > c
    {
      assert !HasCount(c)(Bump(ws, sp)[j]);
    }
  }

  /** Appending a new text keeps the table sorted and puts `t` last. */
  lemma AppendPlacement(ws: seq<WordCloudObject>, t: string)
    requires Sorted(ws) && Positive(ws) && Position(ws, HasText(t)).None?
    ensures var r := ws + [NewWord(t)];
      && Sorted(r)
      && Position(r, HasText(t)) == Some(|ws|)
  {
    var r := ws + [NewWord(t)];
    assert HasText(t)(r[|ws|]);
    assert forall j :: 0 <= j < |ws| ==> r[j] == ws[j];
    PositionIs(r, HasText(t), |ws|);
  }

  /**
   * Moving the bumped entry in front of the entries that share its old
   * count keeps a sorted table sorted.
   */
  lemma MoveSorted(ws: seq<WordCloudObject>, sp: nat, tp: nat)
    requires Sorted(ws) && tp < sp < |ws|
    requires forall j :: 0 <= j < tp ==> ws[j].count > ws[sp].count
    requires ws[tp].count == ws[sp].count
    ensures Sorted(MoveTo(Bump(ws, sp), sp, tp))
  {
    var c := ws[sp].count;
    var r := MoveTo(Bump(ws, sp), sp, tp);
    assert forall j :: 0 <= j < tp ==> r[j] == ws[j] && r[j].count > c;
    assert r[tp].count == c + 1;
    assert forall j :: tp < j <= sp ==> r[j] == ws[j - 1] && r[j].count == c;
    assert forall j :: sp < j < |r| ==> r[j] == ws[j] && r[j].count <= c;
    forall i, j | 0 <= i < j < |r|
      ensures r[i].count >= r[j].count
    {
      if sp < i {
        assert r[i] == ws[i] && r[j] == ws[j];
      } else if j < tp {
        assert r[i] == ws[i] && r[j] == ws[j];
      }
    }
  }

  /** After the move, the entries behind the bumped one all have smaller counts. */
  lemma MoveLast(ws: seq<WordCloudObject>, sp: nat, tp: nat)
    requires Sorted(ws) && tp < sp < |ws|
    requires ws[tp].count == ws[sp].count
    ensures var r := MoveTo(Bump(ws, sp), sp, tp);
      forall j :: tp < j < |r| ==> r[j].count < r[tp].count
  {
    var c := ws[sp].count;
    var r := MoveTo(Bump(ws, sp), sp, tp);
    assert r[tp].count == c + 1;
    assert forall j :: tp < j <= sp ==> r[j] == ws[j - 1] && r[j].count == c;
    assert forall j :: sp < j < |r| ==> r[j] == ws[j] && r[j].count <= c;
  }

  /** After the move, the first entry with text `t` is at the target index. */
  lemma MoveFinds(ws: seq<WordCloudObject>, t: string, sp: nat, tp: nat)
    requires Position(ws, HasText(t)) == Some(sp) && tp < sp
    ensures Position(MoveTo(Bump(ws, sp), sp, tp), HasText(t)) == Some(tp)
  {
    var r := MoveTo(Bump(ws, sp), sp, tp);
    assert HasText(t)(r[tp]);
    forall j | 0 <= j < tp
      ensures !HasText(t)(r[j])
    {
      assert r[j] == ws[j];
      assert !HasText(t)(ws[j]);
    }
    PositionIs(r, HasText(t), tp);
  }

  /** The bumped entry moved forward to the first index holding its old count. */
  lemma MovePlacement(ws: seq<WordCloudObject>, t: string, sp: nat, tp: nat)
    requires Sorted(ws) && Position(ws, HasText(t)) == Some(sp)
    requires tp < sp && Position(Bump(ws, sp), HasCount(ws[sp].count)) == Some(tp)
    ensures var r := MoveTo(Bump(ws, sp), sp, tp);
      && Sorted(r)
      && Position(r, HasText(t)) == Some(tp)
      && forall j :: tp < j < |r| ==> r[j].count < r[tp].count
  {
    var c := ws[sp].count;
    var b := Bump(ws, sp);
    BeforeCount(ws, sp, c, tp);
    assert ws[tp].count == c by {
      assert HasCount(c)(b[tp]);
    }
    MoveSorted(ws, sp, tp);
    MoveFinds(ws, t, sp, tp);
    MoveLast(ws, sp, tp);
  }

  /** The bumped entry stays where it is when no earlier entry holds its old count. */
  lemma StayPlacement(ws: seq<WordCloudObject>, t: string, sp: nat)
    requires Sorted(ws) && Position(ws, HasText(t)) == Some(sp)
    requires var target := Position(Bump(ws, sp), HasCount(ws[sp].count));
      target.None? || target.value >= sp
    ensures var b := Bump(ws, sp);
      && Sorted(b)
      && Position(b, HasText(t)) == Some(sp)
      && forall j :: sp < j < |b| ==> b[j].count < b[sp].count
  {
    var c := ws[sp].count;
    var b := Bump(ws, sp);
    BeforeCount(ws, sp, c, sp);
    assert HasText(t)(b[sp]);
    forall j | 0 <= j < sp
      ensures !HasText(t)(b[j])
    {
      assert !HasText(t)(ws[j]);
    }
  }

  /**
   * In a sorted table the counted text ends up as the last entry of its new
   * count: every entry after it has a strictly smaller count, and the table
   * stays sorted.
   */
  lemma InsertTextPlacement(ws: seq<WordCloudObject>, t: string)
    requires Sorted(ws) && Positive(ws)
    ensures var r := InsertText(ws, t);
      && Sorted(r)
      && Position(r, HasText(t)).Some?
      && var k := Position(r, HasText(t)).value;
         forall j :: k < j < |r| ==> r[j].count < r[k].count
  {
    var found := Position(ws, HasText(t));
    if found.None? {
      AppendPlacement(ws, t);
    } else {
      var sp := found.value;
      var target := Position(Bump(ws, sp), HasCount(ws[sp].count));
      if target.Some? && target.value < sp {
        MovePlacement(ws, t, sp, target.value);
      } else {
        StayPlacement(ws, t, sp);
      }
    }
  }

  /** `insert` keeps the table sorted, texts distinct, counts positive and texts at most 64 characters. */
  lemma InsertTextWellFormed(ws: seq<WordCloudObject>, t: string)
    requires WellFormed(ws)
    requires |t| <= MAX_WORD_CHARS
    ensures WellFormed(InsertText(ws, t))
  {
    InsertTextPlacement(ws, t);
    var found := Position(ws, HasText(t));
    if found.None? {
      AppendDistinct(ws, t);
    } else {
      var sp := found.value;
      var b := Bump(ws, sp);
      assert DistinctTexts(b) && Positive(b);
      var target := Position(b, HasCount(ws[sp].count));
      if target.Some? && target.value < sp {
        MoveToDistinct(b, sp, target.value);
      }
    }
  }

  lemma AppendDistinct(ws: seq<WordCloudObject>, t: string)
    requires WellFormed(ws) && |t| <= MAX_WORD_CHARS
    requires Position(ws, HasText(t)).None?
    ensures var r := ws + [NewWord(t)];
      DistinctTexts(r) && Positive(r) && forall i :: 0 <= i < |r| ==> |r[i].text| <= MAX_WORD_CHARS
  {
    var r := ws + [NewWord(t)];
    forall i, j | 0 <= i < j < |r|
      ensures r[i].text != r[j].text
    {
      if j == |ws| {
        assert !HasText(t)(ws[i]);
      } else {
        assert r[i] == ws[i] && r[j] == ws[j];
      }
    }
  }

  lemma MoveToDistinct(s: seq<WordCloudObject>, from: nat, to: nat)
    requires to < from < |s|
    requires DistinctTexts(s)
    requires forall i :: 0 <= i < |s| ==> s[i].count >= 1 && |s[i].text| <= MAX_WORD_CHARS
    ensures DistinctTexts(MoveTo(s, from, to))
    ensures forall i :: 0 <= i < |s| ==> MoveTo(s, from, to)[i].count >= 1
    ensures forall i :: 0 <= i < |s| ==> |MoveTo(s, from, to)[i].text| <= MAX_WORD_CHARS
  {
    var r := MoveTo(s, from, to);
    forall i, j | 0 <= i < j < |r|
      ensures r[i].text != r[j].text
    {
      var si := if i < to then i else if i == to then from else if i <= from then i - 1 else i;
      var sj := if j < to then j else if j == to then from else if j <= from then j - 1 else j;
      assert r[i] == s[si] && r[j] == s[sj] && si != sj;
    }
  }

  // ---------------------------------------------------------------------------
  // Layout computed by `render`.
  // ---------------------------------------------------------------------------

  /** The largest count, or 1 for an empty table (`max().unwrap_or(1)`). */
  function Denominator(ws: seq<WordCloudObject>): (m: nat)
    ensures ws == [] ==> m == 1
    ensures forall i :: 0 <= i < |ws| ==> ws[i].count <= m
    ensures ws != [] ==> exists i :: 0 <= i < |ws| && ws[i].count == m
  {
    if |ws| == 0 then 1
    else if |ws| == 1 then ws[0].count
    else
      var m := Denominator(ws[..|ws| - 1]);
      if ws[|ws| - 1].count > m then ws[|ws| - 1].count else m
  }

  /** The loop `iter().map(..).max().unwrap_or(1)` runs. */
  method RenderDenominator(ws: seq<WordCloudObject>) returns (m: nat)
    ensures m == Denominator(ws)
  {
    if |ws| == 0 {
      return 1;
    }
    m := ws[0].count;
    var i := 1;
    while i < |ws|
      invariant 1 <= i <= |ws|
      invariant m == Denominator(ws[..i])
    {
      assert ws[..i + 1][..i] == ws[..i];
      if ws[i].count > m {
        m := ws[i].count;
      }
      i := i + 1;
    }
    assert ws[..i] == ws;
  }

  /** A word's font size: 0.5 rem plus up to 2 rem in proportion to its share of the largest count. */
  function FontSize(count: nat, denominator: nat): real
    requires denominator > 0
  {
    0.5 + (count as real / denominator as real) * 2.0
  }

  /**
   * Font sizes lie in (0.5, 2.5] for positive counts up to the denominator,
   * the most frequent word gets exactly 2.5, and a larger count never gets a
   * smaller font.
   */
  lemma FontSizeBounds(c1: nat, c2: nat, denominator: nat)
    requires 0 < c1 <= c2 <= denominator
    ensures 0.5 < FontSize(c1, denominator) <= FontSize(c2, denominator) <= 2.5
    ensures c2 == denominator ==> FontSize(c2, denominator) == 2.5
  {
    var d := denominator as real;
    var x1, x2 := c1 as real / d, c2 as real / d;
    assert x1 * d == c1 as real && x2 * d == c2 as real;
    assert 0.0 < x1 <= x2 <= 1.0;
  }

  /** The colour `render` gives the word at index `i`. */
  function ColorAt(i: nat): (c: string)
    ensures c in WORD_CLOUD_COLORS
    ensures i < |WORD_CLOUD_COLORS| ==> c == WORD_CLOUD_COLORS[i]
  {
    WORD_CLOUD_COLORS[i % |WORD_CLOUD_COLORS|]
  }

  /**
   * The colours repeat every six words, and two neighbouring words never
   * share a colour.
   */
  lemma ColorsCycle(i: nat)
    ensures ColorAt(i + |WORD_CLOUD_COLORS|) == ColorAt(i)
    ensures ColorAt(i + 1) != ColorAt(i)
  {
    var n := |WORD_CLOUD_COLORS|;
    assert (i + n) % n == i % n;
    assert (i + 1) % n != i % n;
  }

  /** Word `i` of `after` is word `i` of `before` restyled by the first loop of `render`. */
  ghost predicate Restyled(before: WordCloudObject, after: WordCloudObject, i: nat, denominator: nat)
    requires denominator > 0
  {
    && after.text == before.text
    && after.count == before.count
    && after.fontSizeRem == FontSize(before.count, denominator)
    && after.colorCode == ColorAt(i)
    && after.previousColorCode == Some(before.colorCode)
    && after.previousFontSizeRem == before.previousFontSizeRem
    && after.previousTopRem == before.previousTopRem
  }

  /** Words are stacked top-down: each starts its predecessor's size plus the gap below its predecessor's top. */
  ghost predicate Stacked(ws: seq<WordCloudObject>)
  {
    && (|ws| > 0 ==> ws[0].topRem == 0.0)
    && forall i :: 0 < i < |ws| ==>
         ws[i].topRem == ws[i - 1].topRem + ws[i - 1].fontSizeRem + VERTICAL_WORD_GAP_REM
  }

  /** The container height `render` returns: bottom of the last word, or 0. */
  function ContainerHeight(ws: seq<WordCloudObject>): real
  {
    if ws == [] then 0.0 else ws[|ws| - 1].topRem + ws[|ws| - 1].fontSizeRem
  }

  /**
   * In a stacked layout with non-negative font sizes every word lies inside
   * the container, and a later word starts at least one gap below the end of
   * any earlier one, so no two words overlap.
   */
  lemma {:induction false} StackedLayout(ws: seq<WordCloudObject>)
    requires Stacked(ws)
    requires forall i :: 0 <= i < |ws| ==> ws[i].fontSizeRem >= 0.0
    ensures forall i :: 0 <= i < |ws| ==>
      0.0 <= ws[i].topRem && ws[i].topRem + ws[i].fontSizeRem <= ContainerHeight(ws)
    ensures forall i, j :: 0 <= i < j < |ws| ==>
      ws[i].topRem + ws[i].fontSizeRem + VERTICAL_WORD_GAP_REM <= ws[j].topRem
  {
    if |ws| > 1 {
      var p := ws[..|ws| - 1];
      assert Stacked(p);
      StackedLayout(p);
      var n := |ws| - 1;
      forall i | 0 <= i < n
        ensures ws[i].topRem + ws[i].fontSizeRem + VERTICAL_WORD_GAP_REM <= ws[n].topRem
      {
        assert p[i] == ws[i] && p[n - 1] == ws[n - 1];
        assert ws[i].topRem + ws[i].fontSizeRem <= ContainerHeight(p);
      }
    }
  }

  /** Two tables list the same texts with the same counts in the same order. */
  ghost predicate SameEntries(a: seq<WordCloudObject>, b: seq<WordCloudObject>)
  {
    |a| == |b| && forall k :: 0 <= k < |a| ==> a[k].text == b[k].text && a[k].count == b[k].count
  }

  /** Restyling and restacking keep the table well formed: it only depends on texts and counts. */
  lemma SameEntriesWellFormed(a: seq<WordCloudObject>, b: seq<WordCloudObject>)
    requires SameEntries(a, b) && WellFormed(a)
    ensures WellFormed(b)
  {
    assert forall i, j :: 0 <= i < j < |b| ==> a[i].count >= a[j].count && a[i].text != a[j].text;
  }

  /** Tables with the same texts and counts have counted the same number of answers. */
  lemma {:induction false} SameEntriesTotal(a: seq<WordCloudObject>, b: seq<WordCloudObject>)
    requires SameEntries(a, b)
    ensures Total(a) == Total(b)
  {
    if a != [] {
      assert SameEntries(a[1..], b[1..]);
      SameEntriesTotal(a[1..], b[1..]);
    }
  }

  /** The first loop of `render`: every word gets its font size and colour, its old colour remembered. */
  method Restyle(ws: seq<WordCloudObject>, denominator: nat) returns (r: seq<WordCloudObject>)
    requires denominator > 0
    ensures |r| == |ws|
    ensures forall k :: 0 <= k < |ws| ==> Restyled(ws[k], r[k], k, denominator)
    ensures forall k :: 0 <= k < |ws| ==> r[k].topRem == ws[k].topRem
  {
    r := ws;
    var i := 0;
    while i < |ws|
      invariant 0 <= i <= |ws| && |r| == |ws|
      invariant forall k :: 0 <= k < i ==> Restyled(ws[k], r[k], k, denominator)
      invariant forall k :: 0 <= k < |ws| ==> r[k].topRem == ws[k].topRem
      invariant forall k :: i <= k < |ws| ==> r[k] == ws[k]
    {
      var w := r[i];
      r := r[i := w.(fontSizeRem := FontSize(w.count, denominator),
                     previousColorCode := Some(w.colorCode),
                     colorCode := ColorAt(i))];
      i := i + 1;
    }
  }

  /** The second loop of `render`: every word starts below its predecessor, nothing else changes. */
  method Stack(ws: seq<WordCloudObject>) returns (r: seq<WordCloudObject>)
    ensures |r| == |ws|
    ensures forall k :: 0 <= k < |ws| ==> r[k] == ws[k].(topRem := r[k].topRem)
    ensures Stacked(r)
  {
    r := ws;
    var i := 0;
    while i < |ws|
      invariant 0 <= i <= |ws| && |r| == |ws|
      invariant forall k :: 0 <= k < |ws| ==> r[k] == ws[k].(topRem := r[k].topRem)
      invariant i > 0 ==> r[0].topRem == 0.0
      invariant forall k :: 0 < k < i ==>
        r[k].topRem == r[k - 1].topRem + r[k - 1].fontSizeRem + VERTICAL_WORD_GAP_REM
    {
      var top := if i == 0 then 0.0 else r[i - 1].topRem + r[i - 1].fontSizeRem + VERTICAL_WORD_GAP_REM;
      r := r[i := r[i].(topRem := top)];
      i := i + 1;
    }
  }

  /** `Vec::remove(from)` then `Vec::insert(to, _)` of the removed element is `MoveTo`. */
  lemma RemoveInsertIsMove<T>(s: seq<T>, from: nat, to: nat)
    requires to < from < |s|
    ensures var rest := s[..from] + s[from + 1..];
      rest[..to] + [s[from]] + rest[to..] == MoveTo(s, from, to)
  {
    var rest := s[..from] + s[from + 1..];
    assert rest[..to] == s[..to];
    assert rest[to..] == s[to..from] + s[from + 1..];
  }

  // ---------------------------------------------------------------------------
  // The table as a mutable object.
  // ---------------------------------------------------------------------------

  class WordCloud {
    var words: seq<WordCloudObject>

    ghost predicate Valid()
      reads this
    {
      WellFormed(words)
    }

    /** `WordCloud::new`. */
    constructor ()
      ensures Valid() && words == []
    {
      words := [];
    }

    /** `insert`: counts one answer under its normalised text. */
    method Insert(text: string)
      requires Valid()
      modifies this
      ensures Valid()
      ensures words == InsertText(old(words), Normalise(text))
    {
      var t := Normalise(text);
      InsertTextWellFormed(words, t);
      ghost var expected := InsertText(words, t);
      var found := FindPosition(words, HasText(t));
      if found.None? {
        words := words + [NewWord(t)];
      } else {
        var sp := found.value;
        var c := words[sp].count;
        var bumped := Bump(words, sp);
        var target := FindPosition(bumped, HasCount(c));
        if target.Some? && target.value < sp {
          var tp := target.value;
          RemoveInsertIsMove(bumped, sp, tp);
          var rest := bumped[..sp] + bumped[sp + 1..];
          words := rest[..tp] + [bumped[sp]] + rest[tp..];
        } else {
          words := bumped;
        }
      }
      assert words == expected;
    }

    /**
     * `render`: restyles every word (font size from its share of the largest
     * count, cyclic colour, previous colour remembered), stacks the words
     * vertically and returns the container height.
     */
    method Render() returns (containerHeight: real)
      requires Valid()
      modifies this
      ensures Valid()
      ensures |words| == |old(words)|
      ensures Denominator(old(words)) > 0
      ensures forall i :: 0 <= i < |words| ==>
        Restyled(old(words)[i], words[i], i, Denominator(old(words)))
      ensures Stacked(words)
      ensures containerHeight == ContainerHeight(words)
      ensures SameEntries(old(words), words)
    {
      var denominator := RenderDenominator(words);
      assert denominator > 0 by {
        if words != [] {
          var k :| 0 <= k < |words| && words[k].count == denominator;
        }
      }
      var styled := Restyle(words, denominator);
      var stacked := Stack(styled);
      forall k | 0 <= k < |words|
        ensures Restyled(words[k], stacked[k], k, denominator)
        ensures stacked[k].text == words[k].text && stacked[k].count == words[k].count
      {
        assert Restyled(words[k], styled[k], k, denominator);
        assert stacked[k] == styled[k].(topRem := stacked[k].topRem);
      }
      assert SameEntries(words, stacked);
      SameEntriesWellFormed(words, stacked);
      words := stacked;
      var n := |words|;
      containerHeight := if n == 0 then 0.0 else words[n - 1].topRem + words[n - 1].fontSizeRem;
    }

    /** `save_previous`: remembers every word's current top and font size. */
    method SavePrevious()
      requires Valid()
      modifies this
      ensures Valid()
      ensures SameEntries(old(words), words)
      ensures |words| == |old(words)|
      ensures forall i :: 0 <= i < |words| ==>
        words[i] == old(words)[i].(previousTopRem := Some(old(words)[i].topRem),
                                   previousFontSizeRem := Some(old(words)[i].fontSizeRem))
    {
      var n := |words|;
      var i := 0;
      while i < n
        invariant 0 <= i <= n && |words| == n
        invariant forall k :: 0 <= k < i ==>
          words[k] == old(words)[k].(previousTopRem := Some(old(words)[k].topRem),
                                     previousFontSizeRem := Some(old(words)[k].fontSizeRem))
        invariant forall k :: i <= k < n ==> words[k] == old(words)[k]
      {
        words := words[i := words[i].(previousTopRem := Some(words[i].topRem),
                                      previousFontSizeRem := Some(words[i].fontSizeRem))];
        i := i + 1;
      }
    }
  }
}
