/** The single-line replacement shared by the line completion and the line
    rewrite plugins: the selected line is replaced by the first generated
    line, which keeps the selected line's ticks. */
module LineEdit {
  import opened Results
  import opened Seqs
  import opened Text
  import opened Tracks
  import opened Prompts
  import opened Parse
  import opened Effects

  /** The lines before the selected one, joined as context. */
  function ContextBefore(lyrics: Track, index: nat): string
    requires index < |lyrics|
  {
    ContextText(lyrics[..index])
  }

  /** The lines after the selected one, joined as context. */
  function ContextAfter(lyrics: Track, index: nat): string
    requires index < |lyrics|
  {
    ContextText(lyrics[index + 1..])
  }

  /** The contexts are the sentences strictly before and strictly after the
      selected line, joined by newlines. */
  lemma ContextsSurroundSelection(lyrics: Track, index: nat)
    requires index < |lyrics|
    ensures ContextBefore(lyrics, index) == Join(Sentences(lyrics)[..index], "\n")
    ensures ContextAfter(lyrics, index) == Join(Sentences(lyrics)[index + 1..], "\n")
  {
    assert Sentences(lyrics[..index]) == Sentences(lyrics)[..index];
    assert Sentences(lyrics[index + 1..]) == Sentences(lyrics)[index + 1..];
  }

  /** The contexts read back: as long as no sentence holds a line break,
      splitting a non-empty context at its line breaks gives back exactly the
      sentences before, and after, the selected line. */
  lemma ContextsSplitBack(lyrics: Track, index: nat)
    requires index < |lyrics|
    requires forall i :: 0 <= i < |lyrics| ==> '\n' !in lyrics[i].sentence
    ensures 0 < index ==> Split(ContextBefore(lyrics, index), '\n') == Sentences(lyrics)[..index]
    ensures index < |lyrics| - 1 ==> Split(ContextAfter(lyrics, index), '\n') == Sentences(lyrics)[index + 1..]
  {
    ContextsSurroundSelection(lyrics, index);
    if 0 < index {
      SplitJoin(Sentences(lyrics)[..index], '\n');
    }
    if index < |lyrics| - 1 {
      SplitJoin(Sentences(lyrics)[index + 1..], '\n');
    }
  }

  /** Replace line `index` of `lyrics` with the first line of the reply to a
      one-line request carrying `userDemands`. */
  function ReplaceLine(lyrics: Track, index: int, lang: string, userDemands: string, response: string): (r: Result<Effect>)
    ensures !(0 <= index < |lyrics|) ==> r == Err(IndexOutOfRange)
    ensures 0 <= index < |lyrics| ==>
      && (lang !in SupportedLanguages ==> r == Err(LanguageNotSupported(lang)))
      && (lang in SupportedLanguages ==> (r.Ok? <==> |SplitLyrics(response)| > 0))
      && (lang in SupportedLanguages && |SplitLyrics(response)| == 0 ==> r == Err(NoLyricsGenerated))
    ensures r.Ok? ==>
      && 0 <= index < |lyrics|
      && r.value.request.Some?
      && LanguageCode(r.value.request.value.prompt.lang) == lang
      && r.value.request.value.prompt.errorMessage == DefaultErrorMessage
      && r.value.request.value.args == PromptArgs(userDemands, ContextBefore(lyrics, index), ContextAfter(lyrics, index), 1)
      && r.value.edit.removals == [index]
      && r.value.edit.insertions == [LyricLine(SplitLyrics(response)[0], lyrics[index].startTick, lyrics[index].endTick)]
      && !r.value.edit.clear
  {
    if !(0 <= index < |lyrics|) then Err(IndexOutOfRange)
    else
      var selected := lyrics[index];
      var prompt :- NewLyricPrompt(lang, DefaultErrorMessage);
      var request := Request(prompt, PromptArgs(userDemands, ContextBefore(lyrics, index), ContextAfter(lyrics, index), 1));
      var lines := SplitLyrics(response);
      if |lines| < 1 then Err(NoLyricsGenerated)
      else Ok(Effect(Some(request), Edit(false, [index], [LyricLine(lines[0], selected.startTick, selected.endTick)])))
  }

  /** A replacement takes out exactly the selected line and puts in one line
      with the same ticks, so the track keeps its length and every other
      line. */
  lemma ReplacementKeepsTrackShape(lyrics: Track, index: int, lang: string, userDemands: string, response: string, e: Effect)
    requires ReplaceLine(lyrics, index, lang, userDemands, response) == Ok(e)
    ensures 0 <= index < |lyrics|
    ensures ApplyEdit(lyrics, e.edit) ==
      Some(multiset(lyrics[..index] + lyrics[index + 1..])
           + multiset{LyricLine(SplitLyrics(response)[0], lyrics[index].startTick, lyrics[index].endTick)})
    ensures |ApplyEdit(lyrics, e.edit).value| == |lyrics|
  {
    var rest := lyrics[..index] + lyrics[index + 1..];
    assert RemoveEach(lyrics, [index]) == Some(rest) by {
      assert [index][1..] == [];
    }
    var added := LyricLine(SplitLyrics(response)[0], lyrics[index].startTick, lyrics[index].endTick);
    assert |multiset(rest) + multiset{added}| == |rest| + 1;
  }
}
