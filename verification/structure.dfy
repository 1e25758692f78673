/** `LyricStructureCompletionPlugin.run`: rewrite the lyrics of one
    structure paragraph (a verse, a chorus) of the song. The lines inside the
    paragraph are removed and the generated lines are spread evenly over it;
    the lines before and after it are handed to the generator as context. */
module StructureCompletion {
  import opened Results
  import opened Seqs
  import opened Tracks
  import opened Placement
  import opened Prompts
  import opened Parse
  import opened Effects

  /** Python's list indexing: a negative index counts from the end. */
  function PyIndex(i: int, n: nat): (r: Option<nat>)
    ensures r.Some? <==> -(n as int) <= i < n
    ensures 0 <= i < n ==> r == Some(i as nat)
    ensures -(n as int) <= i < 0 ==> r == Some((i + n) as nat)
  {
    if 0 <= i < n then Some(i) else if -(n as int) <= i < 0 then Some(i + n) else None
  }

  /** The tick range of a structure paragraph. */
  datatype Paragraph = Paragraph(start: int, end: int)

  /** The paragraph of structure `index`: from its tick to the next
      structure's tick, or to the song's last tick for the last structure.
      `ticks` are the structures' ticks in song order. */
  function SelectParagraph(ticks: seq<int>, lastTick: int, index: int): (r: Result<Paragraph>)
    ensures r.Ok? <==> -|ticks| <= index < |ticks|
    ensures r.Err? ==> r.error == IndexOutOfRange
    ensures 0 <= index < |ticks| ==>
      r.value == Paragraph(ticks[index], if index == |ticks| - 1 then lastTick else ticks[index + 1])
    ensures -|ticks| <= index < 0 ==>
      r.value == Paragraph(ticks[index + |ticks|], if index == -1 then ticks[0] else ticks[index + |ticks| + 1])
  {
    match PyIndex(index, |ticks|)
    case None => Err(IndexOutOfRange)
    case Some(i) =>
      var end := if index == |ticks| - 1 then lastTick else ticks[PyIndex(index + 1, |ticks|).value];
      Ok(Paragraph(ticks[i], end))
  }

  /** A line lies inside the paragraph: it starts at or after its start and
      ends at or before its end. */
  function Within(p: Paragraph): LyricLine -> bool {
    (line: LyricLine) => p.start <= line.startTick && line.endTick <= p.end
  }

  /** A line ends at or before `tick`. */
  function EndsBy(tick: int): LyricLine -> bool {
    (line: LyricLine) => line.endTick <= tick
  }

  /** A line starts at or after `tick`. */
  function StartsFrom(tick: int): LyricLine -> bool {
    (line: LyricLine) => line.startTick >= tick
  }

  /** The number of lines asked for: the user's count, clamped to the
      number of `lineTicks`-long lines the paragraph holds. */
  function LineCount(numLines: int, p: Paragraph, lineTicks: int): (n: int)
    requires lineTicks > 0
    ensures n <= numLines && n <= TruncDiv(p.end - p.start, lineTicks)
    ensures n == numLines || n == TruncDiv(p.end - p.start, lineTicks)
  {
    Min(numLines, TruncDiv(p.end - p.start, lineTicks))
  }

  /** The context handed to the generator: the lines ending by the
      paragraph's start, and the lines starting from its end. */
  function ContextBefore(lyrics: Track, p: Paragraph): string {
    ContextText(Filter(lyrics, EndsBy(p.start)))
  }

  function ContextAfter(lyrics: Track, p: Paragraph): string {
    ContextText(Filter(lyrics, StartsFrom(p.end)))
  }

  /** Each context holds exactly the lines on its side of the paragraph, in
      track order. */
  lemma ContextLinesAreExact(lyrics: Track, p: Paragraph)
    ensures forall x :: multiset(Filter(lyrics, EndsBy(p.start)))[x] == if x.endTick <= p.start then multiset(lyrics)[x] else 0
    ensures forall x :: multiset(Filter(lyrics, StartsFrom(p.end)))[x] == if x.startTick >= p.end then multiset(lyrics)[x] else 0
    ensures forall x :: x in Filter(lyrics, EndsBy(p.start)) <==> x in lyrics && x.endTick <= p.start
    ensures forall x :: x in Filter(lyrics, StartsFrom(p.end)) <==> x in lyrics && x.startTick >= p.end
    ensures IsSubsequence(Filter(lyrics, EndsBy(p.start)), lyrics)
    ensures IsSubsequence(Filter(lyrics, StartsFrom(p.end)), lyrics)
  {
    forall x
      ensures multiset(Filter(lyrics, EndsBy(p.start)))[x] == if x.endTick <= p.start then multiset(lyrics)[x] else 0
      ensures multiset(Filter(lyrics, StartsFrom(p.end)))[x] == if x.startTick >= p.end then multiset(lyrics)[x] else 0
      ensures x in Filter(lyrics, EndsBy(p.start)) <==> x in lyrics && x.endTick <= p.start
      ensures x in Filter(lyrics, StartsFrom(p.end)) <==> x in lyrics && x.startTick >= p.end
    {
      FilterCounts(lyrics, EndsBy(p.start), x);
      FilterCounts(lyrics, StartsFrom(p.end), x);
    }
    FilterIsSubsequence(lyrics, EndsBy(p.start));
    FilterIsSubsequence(lyrics, StartsFrom(p.end));
  }

  /** One run. `ticks` are the song's structure ticks, `lastTick` the song's
      last tick, `index` the selected structure, `lineTicks` the ticks one
      line is reckoned to take, `response` the generator's reply. */
  function Run(lyrics: Track, ticks: seq<int>, lastTick: int, index: int, lang: string, userPrompt: string,
               numLines: int, lineTicks: int, response: string): (r: Result<Effect>)
    requires lineTicks > 0
    ensures SelectParagraph(ticks, lastTick, index).Err? ==> r == Err(IndexOutOfRange)
    ensures SelectParagraph(ticks, lastTick, index).Ok? ==>
      var p := SelectParagraph(ticks, lastTick, index).value;
      var lines := SplitLyrics(response);
      var count := LineCount(numLines, p, lineTicks);
      && (lang !in SupportedLanguages ==> r == Err(LanguageNotSupported(lang)))
      && (lang in SupportedLanguages && |lines| == 0 ==> r == Err(NoLyricsGenerated))
      && (lang in SupportedLanguages && |lines| > 0 ==>
            && (r.Ok? <==> SpanCount(count, |lines|) != 0)
            && (r.Err? ==> r.error == ZeroDivision))
      && (r.Ok? ==>
            && r.value.request.Some?
            && LanguageCode(r.value.request.value.prompt.lang) == lang
            && r.value.request.value.prompt.errorMessage == DefaultErrorMessage
            && r.value.request.value.args == PromptArgs(userPrompt, ContextBefore(lyrics, p), ContextAfter(lyrics, p), count)
            && !r.value.edit.clear
            && r.value.edit.removals == Reverse(IndicesWhere(lyrics, Within(p)))
            && (count >= 1 ==> EvenSpans(r.value.edit.insertions, lines, p.start, p.end, SpanCount(count, |lines|)))
            && (count < 0 ==> ReversedSpan(r.value.edit.insertions, lines, p.start, p.end, count)))
  {
    var p :- SelectParagraph(ticks, lastTick, index);
    var inRange := IndicesWhere(lyrics, Within(p));
    var count := LineCount(numLines, p, lineTicks);
    var prompt :- NewLyricPrompt(lang, DefaultErrorMessage);
    var request := Request(prompt, PromptArgs(userPrompt, ContextBefore(lyrics, p), ContextAfter(lyrics, p), count));
    var lines := SplitLyrics(response);
    if |lines| < 1 then Err(NoLyricsGenerated)
    else
      var spans :- EvenSplit(lines, p.start, p.end, count);
      Ok(Effect(Some(request), Edit(false, Reverse(inRange), spans)))
  }

  /** The removals run from the highest index down, so each is a valid index
      when it is used, and together they take out exactly the lines inside
      the paragraph: afterwards the track holds the lines outside it and the
      new spans. */
  lemma RunReplacesParagraphLines(lyrics: Track, ticks: seq<int>, lastTick: int, index: int, lang: string, userPrompt: string,
                                  numLines: int, lineTicks: int, response: string, e: Effect)
    requires lineTicks > 0
    requires Run(lyrics, ticks, lastTick, index, lang, userPrompt, numLines, lineTicks, response) == Ok(e)
    ensures ApplyEdit(lyrics, e.edit) ==
      Some(multiset(Filter(lyrics, Not(Within(SelectParagraph(ticks, lastTick, index).value)))) + multiset(e.edit.insertions))
  {
    var p := SelectParagraph(ticks, lastTick, index).value;
    RemoveDescendingMatches(lyrics, [], Within(p));
    assert lyrics + [] == lyrics;
    assert Filter(lyrics, Not(Within(p))) + [] == Filter(lyrics, Not(Within(p)));
  }
}
