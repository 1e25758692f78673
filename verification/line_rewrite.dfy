/** `LyricLineRewritePlugin.run`: rewrite one lyric line with no demand of
    the user's, in the context of the lines around it. */
module LineRewrite {
  import opened Results
  import opened Tracks
  import opened Prompts
  import opened Parse
  import opened Effects
  import LineEdit

  /** One run: line `index` is replaced, the demand is empty. */
  function Run(lyrics: Track, index: int, lang: string, response: string): (r: Result<Effect>)
    ensures r.Err? <==> !(0 <= index < |lyrics|) || lang !in SupportedLanguages || |SplitLyrics(response)| == 0
    ensures r.Ok? ==>
      && 0 <= index < |lyrics| && |SplitLyrics(response)| > 0
      && r.value.request.Some?
      && LanguageCode(r.value.request.value.prompt.lang) == lang
      && r.value.request.value.prompt.errorMessage == DefaultErrorMessage
      && r.value.request.value.args
           == PromptArgs("", LineEdit.ContextBefore(lyrics, index), LineEdit.ContextAfter(lyrics, index), 1)
      && !r.value.edit.clear
      && r.value.edit.removals == [index]
      && r.value.edit.insertions == [LyricLine(SplitLyrics(response)[0], lyrics[index].startTick, lyrics[index].endTick)]
  {
    LineEdit.ReplaceLine(lyrics, index, lang, "", response)
  }
}
