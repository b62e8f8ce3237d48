/**
 * How a suggestion card shows one outfit item
 * (components/SuggestionCard.tsx): the first parenthetical matched by
 * `/\(([^)]+)\)/` is taken out of the item and shown apart as its detail.
 */
module SuggestionCard {
  import opened Common
  import opened JsText

  /**
   * The regular expression matches `item[start..end + 1]`: a `(`, one or
   * more characters other than `)`, and a `)`.
   */
  predicate MatchesAt(item: string, start: int, end: int) {
    0 <= start && start + 1 < end < |item|
    && item[start] == '(' && item[end] == ')' && ')' !in item[start + 1..end]
  }

  /** The span of a match: the positions of its parentheses. */
  datatype Span = Span(start: nat, end: nat)

  /**
   * The match the engine reports when it tries from `from` on: at each
   * position, a `(` whose first following `)` is not right after it.
   */
  function MatchFrom(item: string, from: nat): (m: Option<Span>)
    requires from <= |item|
    ensures m.Some? ==> from <= m.value.start && MatchesAt(item, m.value.start, m.value.end)
    ensures m.Some? ==> forall i, j :: from <= i < m.value.start ==> !MatchesAt(item, i, j)
    ensures m.None? ==> forall i, j :: from <= i ==> !MatchesAt(item, i, j)
    decreases |item| - from
  {
    if from == |item| then None
    else
      var k := IndexOf(item[from + 1..], ')');
      if item[from] == '(' && k > 0 then
        assert item[from + 1..][..k] == item[from + 1..from + 1 + k];
        Some(Span(from, from + 1 + k))
      else
        var m := MatchFrom(item, from + 1);
        assert forall j :: !MatchesAt(item, from, j) by {
          forall j | MatchesAt(item, from, j) ensures false {
            NoEarlierClose(item, from, j, k);
          }
        }
        m
  }

  /** At a `(` that matches up to `j`, the first `)` after it is at `j`. */
  lemma NoEarlierClose(item: string, from: nat, j: int, k: int)
    requires MatchesAt(item, from, j) && k == IndexOf(item[from + 1..], ')')
    ensures k == j - from - 1
  {
    var t := item[from + 1..];
    assert t[j - from - 1] == ')';
    assert t[..j - from - 1] == item[from + 1..j];
  }

  /** `item.match(detailRegex)`: the leftmost match, if there is one. */
  function DetailMatch(item: string): (m: Option<Span>)
    ensures m.Some? ==> MatchesAt(item, m.value.start, m.value.end)
    ensures m.Some? ==> forall i, j :: MatchesAt(item, i, j) ==> m.value.start <= i
    ensures m.None? <==> forall i, j :: !MatchesAt(item, i, j)
  {
    MatchFrom(item, 0)
  }

  /** What `renderOutfitItem` shows: the item as it is, or its main text
      followed by the detail in parentheses. */
  datatype Rendered = Plain(text: string) | Detailed(main: string, detail: string)

  /**
   * `renderOutfitItem`: with a match, the main text is the item with the
   * match removed (`replace` removes the same first match), trimmed, and
   * the detail is the first capture group.
   */
  function RenderOutfitItem(item: string): (r: Rendered)
    ensures (forall i, j :: !MatchesAt(item, i, j)) <==> r == Plain(item)
  {
    match DetailMatch(item)
    case None => Plain(item)
    case Some(span) => Detailed(Trim(item[..span.start] + item[span.end + 1..]), item[span.start + 1..span.end])
  }

  /** `item` is `prefix`, a parenthesised `detail`, then `suffix`. */
  predicate SplitsAs(item: string, prefix: string, detail: string, suffix: string) {
    item == prefix + "(" + detail + ")" + suffix
  }

  /** A sequence cut around two of its positions. */
  lemma CutAround<T>(s: seq<T>, a: nat, b: nat)
    requires a < b < |s|
    ensures s == s[..a] + [s[a]] + s[a + 1..b] + [s[b]] + s[b + 1..]
  {
    assert s[..b] == s[..a] + [s[a]] + s[a + 1..b];
    assert s == s[..b] + [s[b]] + s[b + 1..];
  }

  /** The item split around its match. */
  lemma SplitAtMatch(item: string, span: Span)
    requires MatchesAt(item, span.start, span.end)
    ensures SplitsAs(item, item[..span.start], item[span.start + 1..span.end], item[span.end + 1..])
  {
    CutAround(item, span.start, span.end);
  }

  /**
   * A rendered detail comes from a split of the item around its first
   * parenthetical: `item == prefix + "(" + detail + ")" + suffix`, the
   * detail is not empty and holds no `)`, no match starts inside the
   * prefix, and the main text is `trim(prefix + suffix)`.
   */
  lemma DetailedSplit(item: string)
    requires RenderOutfitItem(item).Detailed?
    ensures exists prefix, detail, suffix ::
              && SplitsAs(item, prefix, detail, suffix)
              && RenderOutfitItem(item) == Detailed(Trim(prefix + suffix), detail)
              && detail != [] && ')' !in detail
              && forall i, j :: MatchesAt(item, i, j) ==> |prefix| <= i
  {
    var span := DetailMatch(item).value;
    SplitAtMatch(item, span);
    var prefix, detail, suffix := item[..span.start], item[span.start + 1..span.end], item[span.end + 1..];
    assert RenderOutfitItem(item) == Detailed(Trim(prefix + suffix), detail);
  }

  /** Positions past the cut of `s[..a] + s[b..]` are positions of `s`
      moved down by `b - a`. */
  lemma SliceAfterCut<T>(s: seq<T>, a: nat, b: nat, x: nat, y: nat)
    requires a <= b <= |s| && a <= x <= y && y + (b - a) <= |s|
    ensures (s[..a] + s[b..])[x..y] == s[x + (b - a)..y + (b - a)]
  {
    var r := s[..a] + s[b..];
    assert forall k :: x <= k < y ==> r[k] == s[k + (b - a)];
  }

  /** A match past a cut is a match of the cut text, moved down. */
  lemma MatchSurvivesCut(s: string, a: nat, b: nat, i: int, j: int)
    requires a <= b <= i && MatchesAt(s, i, j)
    ensures MatchesAt(s[..a] + s[b..], i - (b - a), j - (b - a))
  {
    var r := s[..a] + s[b..];
    SliceAfterCut(s, a, b, i - (b - a) + 1, j - (b - a));
    assert r[i - (b - a)] == s[i] && r[j - (b - a)] == s[j];
  }

  /** Only the first parenthetical is taken out: every later match is a
      match of the text the main text is trimmed from, moved down by the
      width of the first. */
  lemma LaterParentheticalsStay(item: string, i: int, j: int)
    requires DetailMatch(item).Some?
    requires MatchesAt(item, i, j) && i > DetailMatch(item).value.end
    ensures var span := DetailMatch(item).value;
            var width := span.end + 1 - span.start;
            MatchesAt(item[..span.start] + item[span.end + 1..], i - width, j - width)
  {
    var span := DetailMatch(item).value;
    MatchSurvivesCut(item, span.start, span.end + 1, i, j);
  }

  /** Empty parentheses are no parenthetical: `()` is shown as it is. */
  lemma EmptyParenthesesStay(item: string)
    requires item == "()"
    ensures RenderOutfitItem(item) == Plain(item)
  {
  }
}
