/** The host's lyric track, seen from the plugins: an ordered sequence of
    lines, each a sentence with a start and an end tick, and the edits a run
    performs on it. */
module Tracks {
  import opened Results
  import opened Seqs
  import opened Text

  datatype LyricLine = LyricLine(sentence: string, startTick: int, endTick: int)

  type Track = seq<LyricLine>

  /** A visible note of a MIDI track; only its ticks matter here. */
  datatype Note = Note(startTick: int, endTick: int)

  /** What one plugin run does to the lyric track, in order: clear it (when
      `clear`), remove lines by index one after the other, then create the
      `insertions`. */
  datatype Edit = Edit(clear: bool, removals: seq<int>, insertions: seq<LyricLine>)

  /** The lines held after `e`, as a multiset: where the host files a created
      line among the others is not modelled. `None` when some removal index
      is not a valid index at the moment it is used. */
  function ApplyEdit(t: Track, e: Edit): (r: Option<multiset<LyricLine>>)
    ensures e.removals == [] && e.clear ==> r == Some(multiset(e.insertions))
    ensures e.removals == [] && !e.clear ==> r == Some(multiset(t) + multiset(e.insertions))
  {
    var kept: Track := if e.clear then [] else t;
    match RemoveEach(kept, e.removals)
    case None => None
    case Some(rest) =>
      assert e.removals == [] ==> rest == kept;
      assert multiset(kept) == if e.clear then multiset{} else multiset(t);
      assert multiset{} + multiset(e.insertions) == multiset(e.insertions);
      Some(multiset(rest) + multiset(e.insertions))
  }

  function Sentences(t: Track): (r: seq<string>)
    ensures |r| == |t|
    ensures forall i :: 0 <= i < |t| ==> r[i] == t[i].sentence
  {
    seq(|t|, i requires 0 <= i < |t| => t[i].sentence)
  }

  /** The lines' sentences joined by newlines, the form in which existing
      lyrics are handed to the prompt as context. */
  function ContextText(t: Track): string {
    Join(Sentences(t), "\n")
  }

  function Abs(x: int): nat {
    if x < 0 then -x else x
  }

  function Min(a: int, b: int): int {
    if a <= b then a else b
  }

  /** Python's `int(a / b)` on integers: the quotient truncated toward zero
      (the rounding of the intermediate float is not modelled). */
  function TruncDiv(a: int, b: int): (q: int)
    requires b != 0
    ensures Abs(q) == Abs(a) / Abs(b)
    ensures q != 0 ==> (q > 0 <==> (a > 0) == (b > 0))
    ensures a >= 0 && b > 0 ==> q == a / b
  {
    var x, y := Abs(a), Abs(b);
    var m := x / y;
    assert 0 <= m by {
      assert y > 0;
    }
    if a == 0 then
      assert m == 0;
      0
    else if (a < 0) == (b < 0) then m
    else -m
  }
}
