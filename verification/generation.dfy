/** `LyricsGenerationPlugin.run`: write lyrics from scratch, or continue the
    existing ones. The tick range comes from the trigger: the whole timeline
    from the last line on when the lyric editor triggers the run, the span of
    a MIDI track's visible notes when the track does. */
module Generation {
  import opened Results
  import opened Tracks
  import opened Placement
  import opened Prompts
  import opened Parse
  import opened Effects

  const LyricsGenerate: string := "lyrics-generate"
  const ContextTrackContent: string := "context-track-content"

  /** The trigger of a run: its type, and for a track trigger the track's
      visible notes in start order (`None` when the track is not found). */
  datatype Trigger = Trigger(kind: string, notes: Option<seq<Note>>)

  /** The tick range new lines are placed in. */
  datatype Range = Range(start: int, end: Bound)

  /** The lyric track the run works on: emptied first when `empty` is set. */
  function Base(lyrics: Track, empty: bool): (r: Track)
    ensures empty ==> r == []
    ensures !empty ==> r == lyrics
  {
    if empty then [] else lyrics
  }

  /** The range selection, with the guard on the last existing line as the
      comment beside it describes it: new lines start no earlier than the
      last existing line. `Ok(None)` is the early return of a track without
      visible notes. */
  function SelectRange(lyrics: Track, trigger: Trigger): (r: Result<Option<Range>>)
    ensures trigger.kind == LyricsGenerate ==>
      && r.Ok? && r.value.Some? && r.value.value.end.Unbounded?
      && (|lyrics| == 0 ==> r.value.value.start == 0)
      && (|lyrics| > 0 ==> r.value.value.start == lyrics[|lyrics| - 1].startTick)
    ensures trigger.kind == ContextTrackContent && trigger.notes.None? ==> r == Err(TrackNotFound)
    ensures trigger.kind == ContextTrackContent && trigger.notes == Some([]) ==> r == Ok(None)
    ensures trigger.kind == ContextTrackContent && trigger.notes.Some? && |trigger.notes.value| > 0 ==>
      var notes := trigger.notes.value;
      && r.Ok? && r.value.Some?
      && r.value.value.end == AtMost(notes[|notes| - 1].endTick)
      && notes[0].startTick <= r.value.value.start
      && (|lyrics| == 0 ==> r.value.value.start == notes[0].startTick)
      && (|lyrics| > 0 ==>
            && lyrics[|lyrics| - 1].startTick <= r.value.value.start
            && (r.value.value.start == notes[0].startTick || r.value.value.start == lyrics[|lyrics| - 1].startTick))
    ensures trigger.kind != LyricsGenerate && trigger.kind != ContextTrackContent ==> r == Err(TriggerNotSupported)
  {
    if trigger.kind == LyricsGenerate then
      Ok(Some(Range(if |lyrics| == 0 then 0 else lyrics[|lyrics| - 1].startTick, Unbounded)))
    else if trigger.kind == ContextTrackContent then
      if trigger.notes.None? then Err(TrackNotFound)
      else
        var notes := trigger.notes.value;
        if |notes| == 0 then Ok(None)
        else
          var start := notes[0].startTick;
          var end := AtMost(notes[|notes| - 1].endTick);
          if |lyrics| > 0 then Ok(Some(Range(Max(lyrics[|lyrics| - 1].startTick, start), end)))
          else Ok(Some(Range(start, end)))
    else
      Err(TriggerNotSupported)
  }

  /** The range selection as the source writes it: the last existing line is
      read when the track is from scratch, that is, empty. */
  function SelectRangeAsWritten(lyrics: Track, trigger: Trigger): (r: Result<Option<Range>>)
    ensures trigger.kind == ContextTrackContent && trigger.notes.Some? && |trigger.notes.value| > 0 ==>
      && (r.Ok? <==> |lyrics| > 0)
      && (r.Err? ==> r.error == IndexOutOfRange)
      && (r.Ok? ==> r.value.Some? && r.value.value.start == trigger.notes.value[0].startTick)
      && (r.Ok? ==> r.value.value.end == AtMost(trigger.notes.value[|trigger.notes.value| - 1].endTick))
    ensures trigger.kind != ContextTrackContent || trigger.notes.None? || trigger.notes == Some([]) ==>
      r == SelectRange(lyrics, trigger)
  {
    if trigger.kind == ContextTrackContent && trigger.notes.Some? && |trigger.notes.value| > 0 then
      var notes := trigger.notes.value;
      var start := notes[0].startTick;
      var end := AtMost(notes[|notes| - 1].endTick);
      if |lyrics| == 0 then Err(IndexOutOfRange)
      else Ok(Some(Range(start, end)))
    else
      SelectRange(lyrics, trigger)
  }

  /** The inverted guard at work: a track trigger with visible notes fails
      on an empty lyric track, where the corrected selection starts at the
      first note; and on a track with lines it starts at the first note even
      when the last line starts later, so new lines are laid over old ones. */
  lemma FromScratchGuardIsInverted()
    ensures SelectRangeAsWritten([], Trigger(ContextTrackContent, Some([Note(0, 1000)]))) == Err(IndexOutOfRange)
    ensures SelectRange([], Trigger(ContextTrackContent, Some([Note(0, 1000)]))) == Ok(Some(Range(0, AtMost(1000))))
    ensures SelectRangeAsWritten([LyricLine("la", 480, 820)], Trigger(ContextTrackContent, Some([Note(0, 1000)])))
         == Ok(Some(Range(0, AtMost(1000))))
    ensures SelectRange([LyricLine("la", 480, 820)], Trigger(ContextTrackContent, Some([Note(0, 1000)])))
         == Ok(Some(Range(480, AtMost(1000))))
  {
  }

  /** The run after its range is chosen: `selected` is the outcome of the
      range selection on the track `base` is left with. */
  function RunOver(selected: Result<Option<Range>>, base: Track, lang: string, userPrompt: string, numLines: int, empty: bool, response: string): (r: Result<Effect>)
    ensures selected.Err? ==> r == Err(selected.error)
    ensures selected == Ok(None) ==> r == Ok(Effect(None, Edit(empty, [], [])))
    ensures selected.Ok? && selected.value.Some? ==>
      && (r.Ok? <==> lang in SupportedLanguages)
      && (r.Err? ==> r.error == LanguageNotSupported(lang))
      && (r.Ok? ==>
            && r.value.request.Some?
            && LanguageCode(r.value.request.value.prompt.lang) == lang
            && r.value.request.value.prompt.errorMessage == DefaultErrorMessage
            && r.value.request.value.args == PromptArgs(userPrompt, ContextText(base), "", numLines)
            && r.value.edit.clear == empty && r.value.edit.removals == []
            && IsFixedPlacement(r.value.edit.insertions, SplitLyrics(response), DefaultWordTicks,
                                selected.value.value.start, selected.value.value.end, Some(numLines)))
  {
    var range :- selected;
    if range.None? then Ok(Effect(None, Edit(empty, [], [])))
    else
      var prompt :- NewLyricPrompt(lang, DefaultErrorMessage);
      var request := Request(prompt, PromptArgs(userPrompt, ContextText(base), "", numLines));
      var placed := PlaceFixed(SplitLyrics(response), DefaultWordTicks, range.value.start, range.value.end, Some(numLines));
      Ok(Effect(Some(request), Edit(empty, [], placed)))
  }

  /** One run, as the source writes it: the range comes from the selection
      with the inverted guard. `lang` is the writing language the host
      settings resolve to; `response` is the generator's reply. */
  function Run(lyrics: Track, trigger: Trigger, lang: string, userPrompt: string, numLines: int, empty: bool, response: string): (r: Result<Effect>)
    ensures SelectRangeAsWritten(Base(lyrics, empty), trigger).Err? ==> r == Err(SelectRangeAsWritten(Base(lyrics, empty), trigger).error)
    ensures trigger.kind == ContextTrackContent && trigger.notes.Some? && |trigger.notes.value| > 0 && Base(lyrics, empty) == [] ==>
      r == Err(IndexOutOfRange)
    ensures SelectRangeAsWritten(Base(lyrics, empty), trigger) == Ok(None) ==> r == Ok(Effect(None, Edit(empty, [], [])))
    ensures SelectRangeAsWritten(Base(lyrics, empty), trigger).Ok? && SelectRangeAsWritten(Base(lyrics, empty), trigger).value.Some? ==>
      var range := SelectRangeAsWritten(Base(lyrics, empty), trigger).value.value;
      && (r.Ok? <==> lang in SupportedLanguages)
      && (r.Err? ==> r.error == LanguageNotSupported(lang))
      && (r.Ok? ==>
            && r.value.request.Some?
            && LanguageCode(r.value.request.value.prompt.lang) == lang
            && r.value.request.value.prompt.errorMessage == DefaultErrorMessage
            && r.value.request.value.args == PromptArgs(userPrompt, ContextText(Base(lyrics, empty)), "", numLines)
            && r.value.edit.clear == empty && r.value.edit.removals == []
            && IsFixedPlacement(r.value.edit.insertions, SplitLyrics(response), DefaultWordTicks, range.start, range.end, Some(numLines)))
  {
    var base := Base(lyrics, empty);
    RunOver(SelectRangeAsWritten(base, trigger), base, lang, userPrompt, numLines, empty, response)
  }

  /** One run with the guard corrected: new lines start no earlier than the
      last existing line. */
  function RunCorrected(lyrics: Track, trigger: Trigger, lang: string, userPrompt: string, numLines: int, empty: bool, response: string): (r: Result<Effect>)
    ensures SelectRange(Base(lyrics, empty), trigger).Err? ==> r == Err(SelectRange(Base(lyrics, empty), trigger).error)
    ensures SelectRange(Base(lyrics, empty), trigger) == Ok(None) ==> r == Ok(Effect(None, Edit(empty, [], [])))
    ensures SelectRange(Base(lyrics, empty), trigger).Ok? && SelectRange(Base(lyrics, empty), trigger).value.Some? ==>
      var range := SelectRange(Base(lyrics, empty), trigger).value.value;
      && (r.Ok? <==> lang in SupportedLanguages)
      && (r.Err? ==> r.error == LanguageNotSupported(lang))
      && (r.Ok? ==>
            && r.value.request.Some?
            && LanguageCode(r.value.request.value.prompt.lang) == lang
            && r.value.request.value.prompt.errorMessage == DefaultErrorMessage
            && r.value.request.value.args == PromptArgs(userPrompt, ContextText(Base(lyrics, empty)), "", numLines)
            && r.value.edit.clear == empty && r.value.edit.removals == []
            && IsFixedPlacement(r.value.edit.insertions, SplitLyrics(response), DefaultWordTicks, range.start, range.end, Some(numLines)))
  {
    var base := Base(lyrics, empty);
    RunOver(SelectRange(base, trigger), base, lang, userPrompt, numLines, empty, response)
  }

  /** The two runs differ only on a track trigger with visible notes, the
      one place the guard is read. */
  lemma RunsDifferOnlyOnTrackNotes(lyrics: Track, trigger: Trigger, lang: string, userPrompt: string, numLines: int, empty: bool, response: string)
    ensures trigger.kind != ContextTrackContent || trigger.notes.None? || trigger.notes == Some([]) ==>
      Run(lyrics, trigger, lang, userPrompt, numLines, empty, response)
        == RunCorrected(lyrics, trigger, lang, userPrompt, numLines, empty, response)
  {
  }

  /** The lines already there stay unless `empty` cleared them; the run
      adds its placed lines to them. */
  lemma RunKeepsExistingLines(lyrics: Track, trigger: Trigger, lang: string, userPrompt: string, numLines: int, empty: bool, response: string, e: Effect)
    requires Run(lyrics, trigger, lang, userPrompt, numLines, empty, response) == Ok(e)
    ensures ApplyEdit(lyrics, e.edit) == Some(multiset(Base(lyrics, empty)) + multiset(e.edit.insertions))
  {
    assert e.edit.clear == empty && e.edit.removals == [];
    assert multiset(Base(lyrics, empty)) == if empty then multiset{} else multiset(lyrics);
  }

  /** The lines a run adds: a prefix of the reply, at most `numLines + 1` of
      them because the cap tests `i > num_lines`, back to back from the
      start of the range the run selected, and for a track trigger none
      ending after the last visible note. */
  lemma RunAddsPrefixOfReply(lyrics: Track, trigger: Trigger, lang: string, userPrompt: string, numLines: int, empty: bool, response: string, e: Effect)
    requires Run(lyrics, trigger, lang, userPrompt, numLines, empty, response) == Ok(e) && e.request.Some?
    ensures |e.edit.insertions| <= Max(numLines + 1, 0)
    ensures Sentences(e.edit.insertions) == SplitLyrics(response)[..|e.edit.insertions|]
    ensures forall k :: 0 <= k < |e.edit.insertions| ==>
      SelectRangeAsWritten(Base(lyrics, empty), trigger).value.value.start <= e.edit.insertions[k].startTick
    ensures trigger.kind == ContextTrackContent ==>
      forall k :: 0 <= k < |e.edit.insertions| ==>
        e.edit.insertions[k].endTick <= trigger.notes.value[|trigger.notes.value| - 1].endTick
  {
    var range := SelectRangeAsWritten(Base(lyrics, empty), trigger).value.value;
    FixedPlacementIsPrefix(e.edit.insertions, SplitLyrics(response), DefaultWordTicks, range.start, range.end, Some(numLines));
    FixedPlacementStaysAfterStart(e.edit.insertions, SplitLyrics(response), DefaultWordTicks, range.start, range.end, Some(numLines));
  }

  /** What the corrected guard buys: every line the corrected run adds
      starts no earlier than the last line the track already holds. */
  lemma CorrectedRunStartsAfterLastLine(lyrics: Track, trigger: Trigger, lang: string, userPrompt: string, numLines: int, empty: bool, response: string, e: Effect)
    requires RunCorrected(lyrics, trigger, lang, userPrompt, numLines, empty, response) == Ok(e) && e.request.Some?
    requires |Base(lyrics, empty)| > 0
    ensures forall k :: 0 <= k < |e.edit.insertions| ==>
      Base(lyrics, empty)[|Base(lyrics, empty)| - 1].startTick <= e.edit.insertions[k].startTick
  {
    var range := SelectRange(Base(lyrics, empty), trigger).value.value;
    FixedPlacementStaysAfterStart(e.edit.insertions, SplitLyrics(response), DefaultWordTicks, range.start, range.end, Some(numLines));
  }
}
