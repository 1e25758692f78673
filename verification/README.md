# gpt-lyrics: lyric generation plugins, modelled in Dafny

gpt-lyrics is a set of plugins for a music editor's lyric track. Each plugin asks a
text generator for lyrics. It parses the reply into lyric lines, places those lines
on the song's integer tick timeline, and edits the track. The plugins are:

- **The melody plugin (`plugin.py`):** writes lines for a MIDI track's melody. It
  clears the track, then places lines back to back from the first visible note, at
  170 ticks per character. It stops at the first line that would end after the last
  note.
- **Lyric generation (`lyric_generation.py`):** writes from scratch or continues the
  existing lyrics. The tick range comes from what triggered the run, and at most
  `num_lines + 1` lines are placed.
- **Structure completion (`lyric_structure_completion.py`):** rewrites one structure
  paragraph, such as a verse or a chorus. It removes the lines inside the paragraph
  and spreads the new lines over it in equal spans.
- **Line completion and line rewrite:** replace one selected line with the first
  generated line. The new line keeps the old line's ticks.

All of them parse the reply with `split_lyrics` and build their messages with
`LyricPrompt`. The melody plugin defines `split_lyrics` itself; the four `lyric_*`
plugins import one from `utils`, and the model gives them the melody plugin's.

## Modules

- **`Results`:** `Option`, `Result`, and one `Error` constructor for each exception
  a run can raise.
- **`Seqs`:** filtering, reversal, the subsequence relation, and removal by index.
  It includes the proof that removing matching indices from the highest down leaves
  exactly the non-matching elements.
- **`Text`:** the Python string operations the code relies on, with Python's
  semantics. These are `find` (which gives -1 when absent), slicing with negative
  bounds, `split("\n")`, `strip` (over the whole `isspace` set), `"\n".join`,
  `lower`, and `str(int)`.
- **`Utils`:** `contains_chinese`.
- **`Parse`:** `split_lyrics`.
- **`Tracks`:**
  - The lyric track, as a sequence of `(sentence, startTick, endTick)` lines.
  - Visible notes, as `(startTick, endTick)` pairs.
  - The `Edit` a run performs: an optional clear, removals by index, then created
    lines.
  - `ApplyEdit`. Because the host's placement of a created line is not visible, it
    yields the resulting lines as a multiset.
- **`Placement`:** the two placement policies, fixed duration per character and the
  even split of a paragraph.
- **`Prompts`:**
  - The `LyricPrompt` language check.
  - The requirement templates, written as lists of literal and placeholder segments.
  - The conditional context requirements.
  - The system and user messages, the chat prompt, and the completion prompt.
- **`Effects`:** what a run returns: the request it sends, if any, and its edit.
- **One module per plugin:** `Plugin`, `Generation`, `StructureCompletion`,
  `LineCompletion` and `LineRewrite`. `LineEdit` holds the replacement the last two
  share.

Each run is a pure function of the inputs its plugin reads: the track, the trigger
data or the selected index, the user's prompt, and the generator's reply. The four
`lyric_*` runs also take the resolved writing language. The melody plugin's run works
the language out from the user's prompt itself. Each run returns `Ok(Effect)` or the
error the plugin would raise.

## Model

| member | source | states |
|---|---|---|
| Utils.ContainsChinese | utils.py:1-9 | true exactly when some character lies in U+4E00..U+9FFF or U+3400..U+4DBF |
| Utils.ContainsChineseMonotone | utils.py:6-8 | text containing a Han character still does after anything is added before or after it |
| Utils.ContainsChineseRangeEnds | utils.py:7-9 | all four range ends count, the neighbours just outside (U+4DC0, U+A000, U+33FF, U+4DFF) do not, the empty string gives false |
| Text.Strip | plugin.py:82 | the result is the input without its leading and trailing whitespace, a contiguous piece of it, and empty exactly when the input is all whitespace |
| Text.Split | plugin.py:82 | there is at least one piece, no piece holds the separator, and the pieces joined back with the separator give the input |
| Text.SplitJoin | plugin.py:82 | splitting a join of separator-free pieces gives back exactly those pieces |
| Text.SplitPiecesAreInfixes | plugin.py:82 | every piece of `split` is a contiguous piece of the input |
| Text.Find | plugin.py:77-78 | `find` gives the first occurrence of the marker, or -1 exactly when it does not occur |
| Text.SliceBound | plugin.py:79 | a slice bound as Python normalises it: one in 0..n is itself, one in -n..-1 counts from the end, one above n becomes n, one below -n becomes 0 |
| Text.NatToDecimalRoundTrip | ai_prompt.py:102 | the decimal digits a line count is formatted with read back as the same number |
| Parse.SplitLyrics | plugin.py:71-86 | every returned line is non-empty, has no whitespace at either end, and contains no structure name in any letter case |
| Parse.SplitLyricsExact | plugin.py:82-84 | the result is exactly the stripped pieces that are non-empty and name no structure, with their multiplicities and in their order |
| Parse.LinesComeFromBetweenMarkers | plugin.py:77-79 | with `[start]` before `[end]`, the region is the text strictly between their first occurrences, and every line is taken from it |
| Parse.LinesComeFromRegion | plugin.py:79-84 | whatever the reply, every returned line is a contiguous piece of the sliced region |
| Parse.Region | plugin.py:77-79 | the sliced region is a contiguous piece of the reply |
| Parse.RegionIsBetweenMarkers | plugin.py:77-79 | with `[start]` before `[end]`, the region is exactly the text between their first occurrences and holds no `[end]` |
| Parse.EndBeforeStartGivesNothing | plugin.py:77-79 | when the first `[end]` comes before the end of the first `[start]`, no line is returned |
| Parse.MissingEndDropsLastCharacter | plugin.py:78-79 | without `[end]` the slice stops one character short of the end of the reply |
| Parse.MissingStartDropsSixCharacters | plugin.py:77-79 | without `[start]` the slice begins at index 6 |
| Parse.LabelledLineIsDropped | plugin.py:11 | a line reading `[Chorus]` counts as naming a structure, so it is not label-free |
| Tracks.ApplyEdit | plugin.py:115-116 | with no removals, a clearing edit leaves only the created lines, and any other edit leaves the old lines plus the created ones |
| Tracks.TruncDiv | lyric_structure_completion.py:157 | `int(a / b)` rounds toward zero: its magnitude is the floor of the magnitudes' quotient, and a non-zero result is negative exactly when the signs differ |
| Placement.PlaceFixed | plugin.py:118-125 | the placed lines are the parsed lines in order, each lasting the word ticks times its length, back to back from the start tick, none ending past the end; placement stops only after the last line, past the cap, or at the first line that does not fit |
| Placement.FixedPlacementIsDetermined | lyric_generation.py:210-217 | the placement relation holds of exactly one line sequence, so the loop's result is fully described by it |
| Placement.FixedPlacementStaysAfterStart | lyric_generation.py:210-217 | every placed line starts at or after the start tick and does not end before it starts |
| Placement.FixedPlacementIsPrefix | plugin.py:119-122 | the placed sentences are a prefix of the parsed lines, and under a cap `n` there are at most `n + 1` of them |
| Placement.CapPlacesOneExtraLine | lyric_generation.py:213 | with room enough, a cap of `n` places `n + 1` lines, because the test is `i > num_lines` |
| Placement.SpansAreEven | lyric_structure_completion.py:187-191 | the `k` spans are back to back from the start, of equal width, their total length is within `k` ticks of the paragraph length, and the last carries the last line |
| Placement.EvenSplit | lyric_structure_completion.py:187-191 | the split fails with a zero division exactly when the span count is 0, and otherwise gives even spans, the first `k - 1` carrying the first lines and the last carrying `lines[-1]`; a negative count (a reversed paragraph) gives the one span `lines[-1]` over `[start + (k-1)*w, start + k*w)` with `w = int((end - start) / k)` |
| Placement.EvenSplitSkipsToLastLine | lyric_structure_completion.py:189-191 | four lines over [0, 1000) in three spans place "a", "b" and then "d" (not "c"), ending at 999 |
| Placement.PlaceFixedStopsAtEnd | plugin.py:119-122 | at 170 ticks per character with the end at 900, "ab" and "cde" are placed and "f" is not |
| Prompts.NewLyricPrompt | ai_prompt.py:8-14 | construction succeeds exactly for "zh" and "en" and otherwise fails with a language error |
| Prompts.GeneralRequirements | ai_prompt.py:63-84 | the item carrying the user-demands placeholder (the first in Chinese, where it is merged with the preamble, the second in English) comes before the last item, and the last item carries the error token and then the line count |
| Prompts.Assemble | ai_prompt.py:86-92 | the continuation requirement is appended exactly when the preceding context is not blank, the insertion requirement exactly when the following context is not blank, and the insertion comes last |
| Prompts.RenderJoinTemplates | ai_prompt.py:93-99 | formatting the newline-joined templates is the same as joining the formatted requirements |
| Prompts.SystemPrompt | ai_prompt.py:49-58 | the system message has the role name "system" and the lyric-writer description in the prompt's language |
| Prompts.UserPromptJoinsRequirements | ai_prompt.py:60-106 | the user message's text is the requirement list (general items, then the conditional context items) formatted one by one and joined by newlines |
| Prompts.UserPromptCarriesArguments | ai_prompt.py:97-105 | the user message quotes the demands, the error token, the line count in decimal, and each context that is not blank |
| Prompts.ChatPrompt | ai_prompt.py:117-122 | exactly two messages, the system description first and the user message second |
| Prompts.ChatPromptRoles | ai_prompt.py:117-122 | the two messages carry the role names "system" and "user", in that order |
| Prompts.CompletionPrompt | ai_prompt.py:108-115 | the system content, a newline, then the user content |
| Prompts.CompletionFlattensChat | ai_prompt.py:108-122 | the completion prompt is the chat messages' contents joined by a newline |
| Plugin.WritingLanguage | plugin.py:98 | the prompt is Chinese exactly when the user's prompt contains a Han character, and otherwise English |
| Plugin.Run | plugin.py:89-125 | a missing track fails, no visible notes is an index error, the request carries the prompt with default arguments, the track is cleared, and the lines are placed at 170 ticks per character between the first note's start and the last note's end |
| Plugin.RunLeavesOnlyPlacedLines | plugin.py:115-125 | afterwards the track holds only the placed lines, which are a prefix of the reply, each lying between the first note's start and the last note's end |
| Generation.SelectRange | lyric_generation.py:165-191 | the range selection with the guard at line 187 corrected to `not from_scratch`: the editor trigger gives [0 or the last line's start, unbounded); the track trigger gives [first note, last note] starting no earlier than the last line; a missing track and other trigger types fail |
| Generation.SelectRangeAsWritten | lyric_generation.py:165-191 | the range selection as written: as the corrected one off the track trigger; with visible notes it fails with an index error exactly on an empty track, and otherwise runs from the first note's start to the last note's end |
| Generation.FromScratchGuardIsInverted | lyric_generation.py:187-189 | on an empty track, one note [0, 1000) makes the written guard fail where the corrected selection gives [0, 1000] |
| Generation.Run | lyric_generation.py:150-217 | the run as written, on the as-written range: selection errors propagate (an empty track under a track trigger with notes fails with an index error); no visible notes changes nothing but the optional clear; otherwise the request's prompt has the resolved language and the default error token `[error]`, the request carries the existing lyrics as context, and the lines are placed at 170 ticks per character from the range start with cap `num_lines` |
| Generation.RunCorrected | lyric_generation.py:150-217 | the same run on the corrected range selection, with the same guarantees: a prompt in the resolved language with the error token `[error]`, the existing lyrics as context, the optional clear and the capped placement from the range start |
| Generation.RunsDifferOnlyOnTrackNotes | lyric_generation.py:168-191 | off a track trigger with visible notes the written and the corrected run give the same result |
| Generation.RunKeepsExistingLines | lyric_generation.py:159-163 | afterwards the track holds the lines kept (none when `empty` is set) plus the placed lines |
| Generation.RunAddsPrefixOfReply | lyric_generation.py:210-217 | at most `num_lines + 1` lines are placed, they are a prefix of the reply, none starts before the start of the as-written range, and under a track trigger none ends after the last visible note |
| Generation.CorrectedRunStartsAfterLastLine | lyric_generation.py:187-189 | under the corrected guard no added line starts before the last line the track already holds |
| StructureCompletion.PyIndex | lyric_structure_completion.py:150-151 | Python list indexing: valid exactly for -n <= i < n; a non-negative index is itself and a negative one counts back from the end (i + n) |
| StructureCompletion.SelectParagraph | lyric_structure_completion.py:150-151 | the paragraph runs from structure i's tick to the next structure's tick, or to the song's last tick for the last structure |
| StructureCompletion.LineCount | lyric_structure_completion.py:157 | the requested count is the smaller of the user's count and the paragraph length in whole line lengths |
| StructureCompletion.ContextLinesAreExact | lyric_structure_completion.py:160-162 | the context before holds each line ending by the paragraph start exactly as often as the track does and no other line, the context after likewise for the lines starting from its end, both in track order |
| StructureCompletion.Run | lyric_structure_completion.py:132-191 | a bad index, a bad language, an empty reply, and a zero span count each fail; otherwise the prompt has the resolved language and the error token `[error]`, the request carries the contexts around the paragraph and the line count, and the run removes exactly the in-range indices in descending order and inserts even spans, or for a negative count (index -1 on a reversed paragraph) the one span the loop creates, with its ticks |
| StructureCompletion.RunReplacesParagraphLines | lyric_structure_completion.py:184-191 | every removal index is valid when used, and afterwards the track holds the lines outside the paragraph plus the new spans |
| Seqs.RemoveDescendingMatches | lyric_structure_completion.py:184-185 | removing the matching indices from the highest down never meets an invalid index and leaves exactly the non-matching elements in order |
| Seqs.IndicesWhere | lyric_structure_completion.py:155 | the indices are ascending, in range, and are exactly those of the elements satisfying the predicate |
| Seqs.FilterCounts | lyric_structure_completion.py:160-162 | filtering keeps each satisfying element as often as it occurs and drops every other element |
| LineEdit.ContextsSurroundSelection | lyric_line_completion.py:130-131 | the contexts are the sentences strictly before and strictly after the selected line, joined by newlines |
| LineEdit.ContextsSplitBack | lyric_line_completion.py:130-131 | when no sentence holds a line break, splitting a non-empty context at its line breaks gives back exactly the sentences before, or after, the selected line |
| LineEdit.ReplaceLine | lyric_line_completion.py:126-153 | an invalid index, a bad language and an empty reply fail; otherwise the prompt has the resolved language and the error token `[error]`, the request asks for one line with the lines before and after as context, one line is removed at the index and one created with the first parsed line and the selected line's ticks |
| LineEdit.ReplacementKeepsTrackShape | lyric_line_rewrite.py:125-126 | afterwards the track holds every other line plus the replacement, so its length is unchanged |
| LineCompletion.Run | lyric_line_completion.py:139-153 | the run fails exactly on a bad index, a bad language or an empty reply; otherwise the prompt has the resolved language and the error token `[error]`, the request carries the user's prompt as demands, the lines before and after as context and a count of one, and the selected line is replaced by the first parsed line with the selected line's ticks |
| LineRewrite.Run | lyric_line_rewrite.py:98-126 | the run fails exactly on a bad index, a bad language or an empty reply; otherwise the prompt has the resolved language and the error token `[error]`, the request carries empty demands, the lines before and after as context and a count of one, and the selected line is replaced by the first parsed line with the selected line's ticks |

The model keeps three quirks of the code as they are written:

- **Generation cap:** `lyric_generation.py` tests `i > num_lines`, so up to
  `num_lines + 1` lines are placed. This is stated in
  `Placement.CapPlacesOneExtraLine`.
- **Last span's text:** the even split gives its last span `lines[-1]` rather than
  `lines[k-1]`. When the reply has more lines than spans, the lines between are
  skipped.
- **Last span's end:** the last span ends at `start + k*w`, which can fall short of
  the paragraph's end. Both even-split quirks are stated in `Placement.EvenSpans`
  and shown in `Placement.EvenSplitSkipsToLastLine`.

The English insertion requirement speaks of "previous lyrics" for the following
context, exactly as written (`ai_prompt.py:92`).

## Left out

- **Network and configuration:** the generator call, its configuration and its
  response handling (`ai_api.py`, `ai_config.py`) are I/O. The reply is a parameter
  of every run, and the request the run would send is part of its result. The
  temperature is only forwarded, so it is not modelled.
- **`params()` methods:** these describe widgets and have no behaviour.
- **`line_plugin.py`, `lyric_structure_rewrite.py`, `debug.py` and `test_app.py`:**
  stubs and launchers.
- **Host internals** (`Song`, `Lyrics`, note sorting) are not visible:
  - The track is a sequence of lines.
  - The notes arrive already sorted by start tick.
  - A structure paragraph's boundaries arrive as the list of structure ticks plus the
    song's last tick.
  - Where the host files a created line is not modelled, so track contents after an
    edit are stated as multisets.
- **The reply parser of the `lyric_*` plugins:** they import `split_lyrics` from
  `utils` (lyric_generation.py:10, lyric_structure_completion.py:9,
  lyric_line_completion.py:9, lyric_line_rewrite.py:9), but `utils.py` as shown
  defines no such function. The model applies `plugin.py`'s `split_lyrics`
  (`Parse.SplitLyrics`) to every plugin.
- **Writing language:** `get_writing_language` is not visible, so the resolved
  language is a parameter of the four `lyric_*` runs.
- **Tick constants:** `DEFAULT_WORD_TICKS` is taken as 170 in every plugin, which is
  the value `plugin.py:13` gives. `DEFAULT_LINE_TICKS` is not visible, so it is the
  positive parameter `lineTicks`.
- **Float rounding:** `int((end - start) / n)` goes through a float. The model uses
  exact truncating division, so rounding on very large tick differences is not
  modelled.
- **Indexing the host track:** indexing `Lyrics` with a negative line index depends
  on the host class. The line runs accept only `0 <= index < len(lyrics)` and report
  any other index as `IndexOutOfRange`. Python list indexing (`PyIndex`) is modelled
  only for the structure list.
- **Partial mutation before an exception:** a run that raises drops its edit.
  - `lyric_generation.py` clears the track (lines 160-161) before a later
    `TrackNotFound`, `TriggerNotSupported` or language error, and before the
    as-written `IndexOutOfRange` at line 189, which with `empty` set always
    follows a clear.
  - Structure completion removes the in-range lines (lines 184-185) before the
    zero-division fault at line 188.
  - The model reports only the error in both cases.
- **Requests sent before an error:** the generator is called before several of the
  errors are raised. `plugin.py` calls it (lines 101-104) before an empty note list
  fails at line 112. Structure completion and the line runs call it before
  `No lyrics generated` (lyric_structure_completion.py:180, lyric_line_completion.py:149,
  lyric_line_rewrite.py:123) and before the zero division at
  lyric_structure_completion.py:188. An `Err` result carries no request, so the model
  does not record that the request was already sent.
- **`lower()`:** only ASCII letters are lowered. No other character lowers to a
  sequence that can complete one of the five structure names.
- **Not in the code:** error-token detection in the reply, case-insensitive markers,
  and splitting on punctuation.
- **A call outside this model:** `ai_api.py` passes `user_demands` positionally into
  `get_chat_prompt(**kwargs)`. That file is not part of this model.

## Findings

| source | as written | input that shows it | evidently intended | confidence | as-written member | corrected member |
|---|---|---|---|---|---|---|
| lyric_generation.py:187-189 | `if from_scratch:` reads the last existing line when the track is empty, which indexes an empty track; when the track has lines, the start stays at the first note and new lines overlap old ones | a track trigger with one visible note [0, 1000) on an empty lyric track | `if not from_scratch:`, so that new lines start from the last line within the visible notes, as the comment beside the guard says | not executed | Generation.SelectRangeAsWritten, Generation.Run, Generation.FromScratchGuardIsInverted | Generation.SelectRange, Generation.RunCorrected, Generation.CorrectedRunStartsAfterLastLine |
