/** `split_lyrics`: turning the generator's raw response into lyric lines. The
    response is cut between the first `[start]` and the first `[end]` with
    Python's `find` and slice semantics, split on newlines, stripped, emptied
    lines dropped, and every line naming a song section dropped. */
module Parse {
  import opened Text
  import opened Seqs

  const StartMarker: string := "[start]"
  const EndMarker: string := "[end]"

  /** Section labels the generator is told not to emit; a line containing one
      (in any letter case) is discarded. */
  const StructureNames: seq<string> := ["chorus", "verse", "intro", "bridge", "outro"]

  /** `any(structure in line.lower() for structure in STRUCTURE_NAMES)`.
      Only ASCII letters are lowered: no other character lowers to a letter
      sequence that can complete one of the five names. */
  predicate MentionsStructure(line: string) {
    exists k :: 0 <= k < |StructureNames| && Contains(AsciiLower(line), StructureNames[k])
  }

  predicate NonEmpty(line: string) {
    line != []
  }

  predicate LabelFree(line: string) {
    !MentionsStructure(line)
  }

  /** `lyrics[lyrics.find("[start]") + len("[start]"):lyrics.find("[end]")]`. */
  function Region(raw: string): (r: string)
    ensures IsInfix(r, raw)
  {
    Slice(raw, Find(raw, StartMarker) + |StartMarker|, Find(raw, EndMarker))
  }

  function StripAll(pieces: seq<string>): (r: seq<string>)
    ensures |r| == |pieces|
    ensures forall i :: 0 <= i < |r| ==> r[i] == Strip(pieces[i])
  {
    seq(|pieces|, i requires 0 <= i < |pieces| => Strip(pieces[i]))
  }

  /** The stripped newline-separated pieces of the marked region. */
  function Pieces(raw: string): seq<string> {
    StripAll(Split(Region(raw), '\n'))
  }

  /** A line `split_lyrics` may return: non-empty, no whitespace at either
      end, and no section label in it. */
  predicate IsLyricLine(line: string) {
    && line != []
    && !IsSpace(line[0])
    && !IsSpace(line[|line| - 1])
    && !MentionsStructure(line)
  }

  function SplitLyrics(raw: string): (r: seq<string>)
    ensures forall i :: 0 <= i < |r| ==> IsLyricLine(r[i])
  {
    var r := Filter(Filter(Pieces(raw), NonEmpty), LabelFree);
    assert forall i :: 0 <= i < |r| ==> IsLyricLine(r[i]) by {
      forall i | 0 <= i < |r| ensures IsLyricLine(r[i]) {
        KeptPieceIsLyricLine(Split(Region(raw), '\n'), r[i]);
      }
    }
    r
  }

  lemma KeptPieceIsLyricLine(parts: seq<string>, x: string)
    requires x in Filter(Filter(StripAll(parts), NonEmpty), LabelFree)
    ensures IsLyricLine(x)
  {
    var pieces := StripAll(parts);
    var lines := Filter(pieces, NonEmpty);
    FilterCounts(lines, LabelFree, x);
    FilterCounts(pieces, NonEmpty, x);
    StrippedPieceIsTrimmed(parts, x);
  }

  /** A non-empty stripped piece has no whitespace at either end. */
  lemma StrippedPieceIsTrimmed(parts: seq<string>, x: string)
    requires x in StripAll(parts) && x != []
    ensures !IsSpace(x[0]) && !IsSpace(x[|x| - 1])
  {
    var j :| 0 <= j < |parts| && StripAll(parts)[j] == x;
    assert IsStripOf(x, parts[j]);
  }

  /** The result is exactly the stripped pieces that are non-empty and name no
      section: each such piece is kept as often as it occurs, every other
      piece is dropped, and the order is kept. */
  lemma SplitLyricsExact(raw: string)
    ensures forall x :: multiset(SplitLyrics(raw))[x] == if x != [] && !MentionsStructure(x) then multiset(Pieces(raw))[x] else 0
    ensures IsSubsequence(SplitLyrics(raw), Pieces(raw))
  {
    var pieces := Pieces(raw);
    var lines := Filter(pieces, NonEmpty);
    forall x ensures multiset(SplitLyrics(raw))[x] == if x != [] && !MentionsStructure(x) then multiset(pieces)[x] else 0 {
      FilterCounts(lines, LabelFree, x);
      FilterCounts(pieces, NonEmpty, x);
    }
    FilterIsSubsequence(pieces, NonEmpty);
    FilterIsSubsequence(lines, LabelFree);
    SubsequenceTransitive(SplitLyrics(raw), lines, pieces);
  }

  /** With `[start]` before `[end]`, the region is exactly the text strictly
      between their first occurrences, it holds no `[end]`, and every
      returned line is taken from it. */
  lemma LinesComeFromBetweenMarkers(raw: string)
    requires Find(raw, StartMarker) != -1
    requires Find(raw, StartMarker) + |StartMarker| <= Find(raw, EndMarker)
    ensures Region(raw) == raw[Find(raw, StartMarker) + |StartMarker|..Find(raw, EndMarker)]
    ensures !IsInfix(EndMarker, Region(raw))
    ensures forall i :: 0 <= i < |SplitLyrics(raw)| ==> IsInfix(SplitLyrics(raw)[i], Region(raw))
  {
    RegionIsBetweenMarkers(raw);
    LinesComeFromRegion(raw);
  }

  lemma RegionIsBetweenMarkers(raw: string)
    requires Find(raw, StartMarker) != -1
    requires Find(raw, StartMarker) + |StartMarker| <= Find(raw, EndMarker)
    ensures Region(raw) == raw[Find(raw, StartMarker) + |StartMarker|..Find(raw, EndMarker)]
    ensures !IsInfix(EndMarker, Region(raw))
  {
    var lo, hi := Find(raw, StartMarker) + |StartMarker|, Find(raw, EndMarker);
    var region := Region(raw);
    assert region == raw[lo..hi];
    if IsInfix(EndMarker, region) {
      var k :| OccursAt(region, EndMarker, k);
      assert forall m :: k <= m < k + |EndMarker| ==> region[m] == raw[lo + m];
      assert raw[lo + k..lo + k + |EndMarker|] == region[k..k + |EndMarker|];
      assert OccursAt(raw, EndMarker, lo + k);
      assert false;
    }
  }

  /** Every returned line is a contiguous piece of the marked region. */
  lemma LinesComeFromRegion(raw: string)
    ensures forall i :: 0 <= i < |SplitLyrics(raw)| ==> IsInfix(SplitLyrics(raw)[i], Region(raw))
  {
    var lines := SplitLyrics(raw);
    assert lines == Filter(Filter(StripAll(Split(Region(raw), '\n')), NonEmpty), LabelFree);
    forall i | 0 <= i < |lines| ensures IsInfix(lines[i], Region(raw)) {
      KeptLineIsInfix(Region(raw), lines[i]);
    }
  }

  /** A line kept from the stripped pieces of `text` is a contiguous piece
      of `text`. */
  lemma KeptLineIsInfix(text: string, x: string)
    requires x in Filter(Filter(StripAll(Split(text, '\n')), NonEmpty), LabelFree)
    ensures IsInfix(x, text)
  {
    var parts := Split(text, '\n');
    KeptPieceComesFromPart(parts, x);
    var j :| 0 <= j < |parts| && IsInfix(x, parts[j]);
    SplitPiecesAreInfixes(text, '\n');
    InfixTransitive(x, parts[j], text);
  }

  /** A kept line is a contiguous piece of one of the parts it was stripped
      from. */
  lemma KeptPieceComesFromPart(parts: seq<string>, x: string)
    requires x in Filter(Filter(StripAll(parts), NonEmpty), LabelFree)
    ensures exists j :: 0 <= j < |parts| && IsInfix(x, parts[j])
  {
    var pieces := StripAll(parts);
    FilterCounts(Filter(pieces, NonEmpty), LabelFree, x);
    FilterCounts(pieces, NonEmpty, x);
    var j :| 0 <= j < |pieces| && pieces[j] == x;
    assert IsInfix(x, parts[j]);
  }

  /** With `[end]` first, the slice is empty and nothing is returned. */
  lemma EndBeforeStartGivesNothing(raw: string)
    requires Find(raw, StartMarker) != -1 && Find(raw, EndMarker) != -1
    requires Find(raw, EndMarker) < Find(raw, StartMarker) + |StartMarker|
    ensures Region(raw) == ""
    ensures SplitLyrics(raw) == []
  {
    assert Split("", '\n') == [""];
    assert Pieces(raw) == [""];
  }

  /** Without `[end]`, `find` gives -1 and the slice stops one character before
      the end of the response: the last character is never part of a line. */
  lemma MissingEndDropsLastCharacter(raw: string)
    requires !IsInfix(EndMarker, raw)
    ensures |raw| > 0 ==> IsInfix(Region(raw), raw[..|raw| - 1])
    ensures Region(raw) != "" ==> Region(raw) == raw[|raw| - 1 - |Region(raw)|..|raw| - 1]
  {
    var lo := SliceBound(Find(raw, StartMarker) + |StartMarker|, |raw|);
    if |raw| > 0 {
      var hi := |raw| - 1;
      if lo < hi {
        assert Region(raw) == raw[lo..hi] == raw[..hi][lo..hi];
        InfixSlice(raw[..hi], lo, hi);
      } else {
        assert Region(raw) == "";
        assert OccursAt(raw[..hi], "", 0);
      }
    }
  }

  /** Without `[start]`, `find` gives -1 and the slice starts at index 6:
      the first six characters are never part of a line. */
  lemma MissingStartDropsSixCharacters(raw: string)
    requires !IsInfix(StartMarker, raw)
    ensures Region(raw) != "" ==> |raw| > 6 && Region(raw) == raw[6..6 + |Region(raw)|]
  {
  }

  /** The structural-label filter drops a labelled line whole, whatever the
      letter case of the label. */
  lemma LabelledLineIsDropped()
    ensures MentionsStructure("[Chorus]")
    ensures !LabelFree("[Chorus]")
  {
    var lowered := AsciiLower("[Chorus]");
    assert lowered[1..7] == "chorus";
    assert OccursAt(lowered, StructureNames[0], 1);
  }
}
