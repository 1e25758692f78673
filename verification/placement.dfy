/** The two ways the plugins place generated lines on the tick timeline:
    a fixed number of ticks per character, lines back to back from a start
    tick; and an even split of a paragraph into equal spans. */
module Placement {
  import opened Results
  import opened Seqs
  import opened Tracks

  /** The end tick of a placement: a tick, or `math.inf`. */
  datatype Bound = Unbounded | AtMost(tick: int)

  predicate Fits(cursor: int, duration: int, end: Bound) {
    end.Unbounded? || cursor + duration <= end.tick
  }

  /** Where the next line starts: where the last placed line ends, or
      `start` when nothing is placed yet. */
  function NextStart(placed: seq<LyricLine>, start: int): int {
    if |placed| == 0 then start else placed[|placed| - 1].endTick
  }

  /** `DEFAULT_WORD_TICKS * len(line)`: the ticks a line lasts. */
  function Duration(wordTicks: int, line: string): int {
    wordTicks * |line|
  }

  /** `r` is what the placement loop places from the `i`-th line on with the
      cursor at `cursor`: the next lines in order, each lasting its
      duration, back to back from `cursor`, none passing `end`, none with an
      index above `cap`, and stopping only at the end of `lines`, at the cap,
      or at the first line that does not fit. */
  ghost predicate PlacedFrom(r: seq<LyricLine>, lines: seq<string>, wordTicks: int, cursor: int, end: Bound, cap: Option<int>, i: nat) {
    && i + |r| <= |lines|
    && (forall k :: 0 <= k < |r| ==> r[k].sentence == lines[i + k])
    && (forall k :: 0 <= k < |r| ==> r[k].endTick - r[k].startTick == Duration(wordTicks, lines[i + k]))
    && (|r| > 0 ==> r[0].startTick == cursor)
    && (forall k :: 0 < k < |r| ==> r[k].startTick == r[k - 1].endTick)
    && (end.AtMost? ==> forall k :: 0 <= k < |r| ==> r[k].endTick <= end.tick)
    && (cap.Some? && |r| > 0 ==> i + |r| - 1 <= cap.value)
    && (i + |r| < |lines| ==>
         (cap.Some? && i + |r| > cap.value) || !Fits(NextStart(r, cursor), Duration(wordTicks, lines[i + |r|]), end))
  }

  lemma PlacedFromCons(line: LyricLine, rest: seq<LyricLine>, lines: seq<string>, wordTicks: int, end: Bound, cap: Option<int>, i: nat)
    requires i < |lines| && line.sentence == lines[i]
    requires line.endTick - line.startTick == Duration(wordTicks, lines[i])
    requires cap.None? || i <= cap.value
    requires Fits(line.startTick, Duration(wordTicks, lines[i]), end)
    requires PlacedFrom(rest, lines, wordTicks, line.endTick, end, cap, i + 1)
    ensures PlacedFrom([line] + rest, lines, wordTicks, line.startTick, end, cap, i)
  {
    var r := [line] + rest;
    assert forall k :: 0 < k < |r| ==> r[k] == rest[k - 1];
    assert NextStart(r, line.startTick) == NextStart(rest, line.endTick);
  }

  /** The placement loop from the `i`-th line on, the cursor at `cursor`. */
  function PlaceFrom(lines: seq<string>, wordTicks: int, cursor: int, end: Bound, cap: Option<int>, i: nat): (r: seq<LyricLine>)
    requires i <= |lines|
    ensures PlacedFrom(r, lines, wordTicks, cursor, end, cap, i)
    decreases |lines| - i
  {
    if i == |lines| then []
    else
      var duration := Duration(wordTicks, lines[i]);
      if (cap.Some? && i > cap.value) || !Fits(cursor, duration, end) then []
      else
        var line := LyricLine(lines[i], cursor, cursor + duration);
        var rest := PlaceFrom(lines, wordTicks, cursor + duration, end, cap, i + 1);
        PlacedFromCons(line, rest, lines, wordTicks, end, cap, i);
        [line] + rest
  }

  /** The first line of a placement is the `i`-th line at the cursor, and
      the rest is a placement from the next line on. */
  lemma PlacedFromTail(r: seq<LyricLine>, lines: seq<string>, wordTicks: int, cursor: int, end: Bound, cap: Option<int>, i: nat)
    requires PlacedFrom(r, lines, wordTicks, cursor, end, cap, i) && |r| > 0
    ensures r[0] == LyricLine(lines[i], cursor, cursor + Duration(wordTicks, lines[i]))
    ensures (cap.None? || i <= cap.value) && Fits(cursor, Duration(wordTicks, lines[i]), end)
    ensures PlacedFrom(r[1..], lines, wordTicks, r[0].endTick, end, cap, i + 1)
  {
    var rest := r[1..];
    assert forall k :: 0 <= k < |rest| ==> rest[k] == r[k + 1];
    assert NextStart(rest, r[0].endTick) == NextStart(r, cursor);
  }

  /** Two placements of the same lines from the same cursor are both empty
      or both start with the same line. */
  lemma PlacedFromAgree(r1: seq<LyricLine>, r2: seq<LyricLine>, lines: seq<string>, wordTicks: int, cursor: int, end: Bound, cap: Option<int>, i: nat)
    requires PlacedFrom(r1, lines, wordTicks, cursor, end, cap, i)
    requires PlacedFrom(r2, lines, wordTicks, cursor, end, cap, i)
    ensures |r1| == 0 <==> |r2| == 0
    ensures |r1| > 0 && |r2| > 0 ==> r1[0] == r2[0]
  {
    if |r1| > 0 {
      PlacedFromTail(r1, lines, wordTicks, cursor, end, cap, i);
    }
    if |r2| > 0 {
      PlacedFromTail(r2, lines, wordTicks, cursor, end, cap, i);
    }
  }

  /** The placement predicate leaves no freedom: two placements of the same
      lines from the same cursor are equal. */
  lemma {:induction false} PlacedFromUnique(r1: seq<LyricLine>, r2: seq<LyricLine>, lines: seq<string>, wordTicks: int, cursor: int, end: Bound, cap: Option<int>, i: nat)
    requires PlacedFrom(r1, lines, wordTicks, cursor, end, cap, i)
    requires PlacedFrom(r2, lines, wordTicks, cursor, end, cap, i)
    ensures r1 == r2
    decreases |lines| - i
  {
    PlacedFromAgree(r1, r2, lines, wordTicks, cursor, end, cap, i);
    if |r1| > 0 && |r2| > 0 {
      PlacedFromTail(r1, lines, wordTicks, cursor, end, cap, i);
      PlacedFromTail(r2, lines, wordTicks, cursor, end, cap, i);
      PlacedFromUnique(r1[1..], r2[1..], lines, wordTicks, r1[0].endTick, end, cap, i + 1);
      HeadTailEqual(r1, r2);
    }
  }

  /** The ticks per character the plugins use. */
  const DefaultWordTicks: int := 170

  /** `r` is the fixed-duration placement of `lines` from `start`: the lines
      in order, each lasting `wordTicks` ticks per character, back to back
      from `start`, none passing `end`, none with an index above `cap`, and
      stopping only after the last line, at the cap, or at the first line
      that does not fit. */
  ghost predicate IsFixedPlacement(r: seq<LyricLine>, lines: seq<string>, wordTicks: int, start: int, end: Bound, cap: Option<int>) {
    PlacedFrom(r, lines, wordTicks, start, end, cap, 0)
  }

  /** Fixed duration per character: the placement loop of the plugins. */
  function PlaceFixed(lines: seq<string>, wordTicks: int, start: int, end: Bound, cap: Option<int>): (r: seq<LyricLine>)
    ensures IsFixedPlacement(r, lines, wordTicks, start, end, cap)
  {
    PlaceFrom(lines, wordTicks, start, end, cap, 0)
  }

  /** `IsFixedPlacement` is a complete description of the loop: the only
      placement it admits is the one the loop computes. */
  lemma FixedPlacementIsDetermined(r: seq<LyricLine>, lines: seq<string>, wordTicks: int, start: int, end: Bound, cap: Option<int>)
    requires IsFixedPlacement(r, lines, wordTicks, start, end, cap)
    ensures r == PlaceFixed(lines, wordTicks, start, end, cap)
  {
    PlacedFromUnique(r, PlaceFixed(lines, wordTicks, start, end, cap), lines, wordTicks, start, end, cap, 0);
  }

  /** With a non-negative tick count per character, every placed line lies
      after `start` and ends no earlier than it begins. */
  lemma {:induction false} FixedPlacementStaysAfterStart(r: seq<LyricLine>, lines: seq<string>, wordTicks: int, start: int, end: Bound, cap: Option<int>)
    requires IsFixedPlacement(r, lines, wordTicks, start, end, cap) && wordTicks >= 0
    ensures forall k :: 0 <= k < |r| ==> start <= r[k].startTick <= r[k].endTick
  {
    var k := 0;
    while k < |r|
      invariant k <= |r|
      invariant forall j :: 0 <= j < k ==> start <= r[j].startTick <= r[j].endTick
    {
      assert r[k].endTick - r[k].startTick == Duration(wordTicks, lines[0 + k]) >= 0;
      if k > 0 {
        assert r[k].startTick == r[k - 1].endTick;
      }
      k := k + 1;
    }
  }

  /** The placed lines are a prefix of the parsed lines, and with a cap `n`
      at most `n + 1` of them are placed. */
  lemma FixedPlacementIsPrefix(r: seq<LyricLine>, lines: seq<string>, wordTicks: int, start: int, end: Bound, cap: Option<int>)
    requires IsFixedPlacement(r, lines, wordTicks, start, end, cap)
    ensures |r| <= |lines| && Sentences(r) == lines[..|r|]
    ensures cap.Some? ==> |r| <= Max(cap.value + 1, 0)
  {
    assert forall k :: 0 <= k < |r| ==> Sentences(r)[k] == lines[k];
  }

  function Max(a: int, b: int): int {
    if a >= b then a else b
  }

  lemma {:induction false} PlaceFromUnboundedCount(lines: seq<string>, wordTicks: int, cursor: int, n: int, i: nat)
    requires i <= n + 1 <= |lines|
    ensures |PlaceFrom(lines, wordTicks, cursor, Unbounded, Some(n), i)| == n + 1 - i
    decreases |lines| - i
  {
    if i < n + 1 {
      PlaceFromUnboundedCount(lines, wordTicks, cursor + Duration(wordTicks, lines[i]), n, i + 1);
    }
  }

  /** The cap tests `i > cap`, so with room to spare one line more than the
      cap is placed. */
  lemma CapPlacesOneExtraLine(lines: seq<string>, wordTicks: int, start: int, n: nat)
    requires n + 1 <= |lines|
    ensures |PlaceFixed(lines, wordTicks, start, Unbounded, Some(n))| == n + 1
  {
    PlaceFromUnboundedCount(lines, wordTicks, start, n, 0);
  }

  /** The number of spans the even split makes: the requested count, clamped
      to the number of generated lines. */
  function SpanCount(lineCount: int, available: nat): int {
    Min(lineCount, available)
  }

  /** `v` divides the paragraph from `start` into `k` equal spans laid back
      to back; the width is the floor of `(end - start) / k` when the
      paragraph is not reversed, so the spans stop short of `end` by less
      than `k` ticks. The first `k - 1` spans carry the first `k - 1` lines
      and the last span carries the last generated line. */
  ghost predicate EvenSpans(v: seq<LyricLine>, lines: seq<string>, start: int, end: int, k: int)
    requires |lines| >= 1
  {
    && |v| == k && 1 <= k <= |lines|
    && v[0].startTick == start
    && (forall i :: 0 < i < |v| ==> v[i].startTick == v[i - 1].endTick)
    && (forall i :: 0 <= i < |v| ==> v[i].endTick - v[i].startTick == v[0].endTick - v[0].startTick)
    && (forall i :: 0 <= i < |v| - 1 ==> v[i].sentence == lines[i])
    && v[|v| - 1].sentence == lines[|lines| - 1]
    && (start <= end ==>
         var w := v[0].endTick - v[0].startTick;
         0 <= k * w <= end - start < k * (w + 1))
  }

  /** The single span a negative count `k` (a reversed paragraph) creates:
      the loop body runs once, for `i = k`, so the span is the `k`-th of
      width `int((end - start) / k)` counted from `start`, and it carries the
      last generated line. */
  ghost predicate ReversedSpan(v: seq<LyricLine>, lines: seq<string>, start: int, end: int, k: int)
    requires |lines| >= 1 && k < 0
  {
    && |v| == 1
    && v[0].sentence == lines[|lines| - 1]
    && v[0].startTick == start + (k - 1) * TruncDiv(end - start, k)
    && v[0].endTick == start + k * TruncDiv(end - start, k)
  }

  /** `k` spans of width `w` from `start`, as the insertion loop and the
      final insertion create them. */
  function Spans(lines: seq<string>, start: int, w: int, k: int): (r: seq<LyricLine>)
    requires 1 <= k <= |lines|
    ensures |r| == k
    ensures forall i :: 0 <= i < k ==> r[i].startTick == start + i * w && r[i].endTick == start + (i + 1) * w
    ensures forall i :: 0 <= i < k - 1 ==> r[i].sentence == lines[i]
    ensures r[k - 1].sentence == lines[|lines| - 1]
  {
    seq(k - 1, i requires 0 <= i < k - 1 => LyricLine(lines[i], start + i * w, start + (i + 1) * w))
      + [LyricLine(lines[|lines| - 1], start + (k - 1) * w, start + k * w)]
  }

  lemma FloorDivBounds(d: int, k: int)
    requires d >= 0 && k >= 1
    ensures 0 <= k * (d / k) <= d < k * (d / k + 1)
  {
  }

  lemma SpansAreEven(lines: seq<string>, start: int, end: int, k: int)
    requires 1 <= k <= |lines|
    ensures EvenSpans(Spans(lines, start, TruncDiv(end - start, k), k), lines, start, end, k)
  {
    var w := TruncDiv(end - start, k);
    var v := Spans(lines, start, w, k);
    assert forall i :: 0 <= i < k ==> v[i].endTick - v[i].startTick == w by {
      forall i | 0 <= i < k ensures v[i].endTick - v[i].startTick == w {
        assert start + (i + 1) * w - (start + i * w) == w;
      }
    }
    forall i | 0 < i < k ensures v[i].startTick == v[i - 1].endTick {
      assert start + (i - 1 + 1) * w == start + i * w;
    }
    if start <= end {
      FloorDivBounds(end - start, k);
    }
  }

  /** Even split: `k = min(count, |lines|)` spans of width `int((end - start) / k)`
      from `start`. `k = 0` divides by zero; a negative `k` (a reversed
      paragraph) creates only the final span. */
  function EvenSplit(lines: seq<string>, start: int, end: int, count: int): (r: Result<seq<LyricLine>>)
    requires |lines| >= 1
    ensures r.Err? <==> SpanCount(count, |lines|) == 0
    ensures r.Err? ==> r.error == ZeroDivision
    ensures r.Ok? && count >= 1 ==> EvenSpans(r.value, lines, start, end, SpanCount(count, |lines|))
    ensures r.Ok? && count < 0 ==> ReversedSpan(r.value, lines, start, end, count)
  {
    var k := SpanCount(count, |lines|);
    if k == 0 then Err(ZeroDivision)
    else
      var w := TruncDiv(end - start, k);
      if k >= 1 then
        SpansAreEven(lines, start, end, k);
        Ok(Spans(lines, start, w, k))
      else
        Ok([LyricLine(lines[|lines| - 1], start + (k - 1) * w, start + k * w)])
  }

  /** Both quirks of the even split at once: the third span carries the last
      generated line rather than the third, and the spans stop at 999, short
      of the paragraph's end at 1000. */
  lemma EvenSplitSkipsToLastLine()
    ensures EvenSplit(["a", "b", "c", "d"], 0, 1000, 3)
         == Ok([LyricLine("a", 0, 333), LyricLine("b", 333, 666), LyricLine("d", 666, 999)])
  {
    var lines := ["a", "b", "c", "d"];
    assert SpanCount(3, |lines|) == 3;
    assert TruncDiv(1000 - 0, 3) == 333;
    var v := Spans(lines, 0, 333, 3);
    assert v[0] == LyricLine("a", 0, 333);
    assert v[1] == LyricLine("b", 333, 666);
    assert v[2] == LyricLine("d", 666, 999);
    assert v == [LyricLine("a", 0, 333), LyricLine("b", 333, 666), LyricLine("d", 666, 999)];
  }

  /** Fixed placement stops at the first line that would pass the end: "f"
      would end at 1020, after 900. */
  lemma PlaceFixedStopsAtEnd()
    ensures PlaceFixed(["ab", "cde", "f"], DefaultWordTicks, 0, AtMost(900), None)
         == [LyricLine("ab", 0, 340), LyricLine("cde", 340, 850)]
  {
    FixedPlacementIsDetermined([LyricLine("ab", 0, 340), LyricLine("cde", 340, 850)], ["ab", "cde", "f"], DefaultWordTicks, 0, AtMost(900), None);
  }
}
