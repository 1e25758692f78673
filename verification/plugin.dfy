/** `LyricGenerationPlugin.run`: write lyrics for the melody of one MIDI
    track. The lines are placed from the first visible note on, a fixed
    number of ticks per character, and the lyric track is cleared first. */
module Plugin {
  import opened Results
  import opened Tracks
  import opened Placement
  import opened Prompts
  import opened Parse
  import opened Utils
  import opened Effects

  /** `contains_chinese(prompt) and "zh" or "en"`. */
  function WritingLanguage(userPrompt: string): (lang: string)
    ensures lang == "zh" <==> ContainsChinese(userPrompt)
    ensures lang in SupportedLanguages
  {
    if ContainsChinese(userPrompt) then "zh" else "en"
  }

  /** One run. `notes` are the track's visible notes in start order, `None`
      when the track is not found; `response` is the generator's reply. */
  function Run(notes: Option<seq<Note>>, userPrompt: string, response: string): (r: Result<Effect>)
    ensures notes.None? ==> r == Err(TrackNotFound)
    ensures notes.Some? ==> (r.Ok? <==> |notes.value| > 0)
    ensures notes.Some? && |notes.value| == 0 ==> r == Err(IndexOutOfRange)
    ensures r.Ok? ==>
      r.value.request == Some(Request(LyricPrompt(if ContainsChinese(userPrompt) then Zh else En, DefaultErrorMessage),
                                      PromptArgs(userPrompt, "", "", DefaultNumLines)))
    ensures r.Ok? ==> r.value.edit.clear && r.value.edit.removals == []
    ensures r.Ok? ==>
      IsFixedPlacement(r.value.edit.insertions, SplitLyrics(response), DefaultWordTicks,
                       notes.value[0].startTick, AtMost(notes.value[|notes.value| - 1].endTick), None)
  {
    if notes.None? then Err(TrackNotFound)
    else
      var prompt := NewLyricPrompt(WritingLanguage(userPrompt), DefaultErrorMessage).value;
      var request := Request(prompt, PromptArgs(userPrompt, "", "", DefaultNumLines));
      var lines := SplitLyrics(response);
      var visible := notes.value;
      if |visible| == 0 then Err(IndexOutOfRange)
      else
        var placed := PlaceFixed(lines, DefaultWordTicks, visible[0].startTick, AtMost(visible[|visible| - 1].endTick), None);
        Ok(Effect(Some(request), Edit(true, [], placed)))
  }

  /** The track is cleared before any line is placed, so afterwards it holds
      the placed lines and nothing else, whatever it held before; the placed
      lines are the first lines of the reply, back to back from the first
      note, none ending after the last note. */
  lemma RunLeavesOnlyPlacedLines(notes: Option<seq<Note>>, userPrompt: string, response: string, lyrics: Track, e: Effect)
    requires Run(notes, userPrompt, response) == Ok(e)
    ensures ApplyEdit(lyrics, e.edit) == Some(multiset(e.edit.insertions))
    ensures |e.edit.insertions| <= |SplitLyrics(response)|
    ensures Sentences(e.edit.insertions) == SplitLyrics(response)[..|e.edit.insertions|]
    ensures forall k :: 0 <= k < |e.edit.insertions| ==>
      notes.value[0].startTick <= e.edit.insertions[k].startTick
      && e.edit.insertions[k].endTick <= notes.value[|notes.value| - 1].endTick
  {
    RunClearsTrack(notes, userPrompt, response, lyrics, e);
    RunPlacesPrefixInRange(notes, userPrompt, response, e);
  }

  lemma RunClearsTrack(notes: Option<seq<Note>>, userPrompt: string, response: string, lyrics: Track, e: Effect)
    requires Run(notes, userPrompt, response) == Ok(e)
    ensures ApplyEdit(lyrics, e.edit) == Some(multiset(e.edit.insertions))
  {
    assert e.edit.clear && e.edit.removals == [];
  }

  lemma RunPlacesPrefixInRange(notes: Option<seq<Note>>, userPrompt: string, response: string, e: Effect)
    requires Run(notes, userPrompt, response) == Ok(e)
    ensures |e.edit.insertions| <= |SplitLyrics(response)|
    ensures Sentences(e.edit.insertions) == SplitLyrics(response)[..|e.edit.insertions|]
    ensures forall k :: 0 <= k < |e.edit.insertions| ==>
      notes.value[0].startTick <= e.edit.insertions[k].startTick
      && e.edit.insertions[k].endTick <= notes.value[|notes.value| - 1].endTick
  {
    var visible := notes.value;
    var end := AtMost(visible[|visible| - 1].endTick);
    FixedPlacementIsPrefix(e.edit.insertions, SplitLyrics(response), DefaultWordTicks, visible[0].startTick, end, None);
    FixedPlacementStaysAfterStart(e.edit.insertions, SplitLyrics(response), DefaultWordTicks, visible[0].startTick, end, None);
  }
}
