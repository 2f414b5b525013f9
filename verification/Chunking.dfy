/** Overlapping, offset-addressed text chunks. */
module Chunking {
  import opened Prelude

  datatype TextChunk = TextChunk(index: nat, startOffset: nat, endOffset: nat, text: string)

  const MAX_CHARACTERS: nat := 1600
  const OVERLAP_CHARACTERS: nat := 200
  const MARKERS: seq<string> := ["\n\n", ". ", " "]

  predicate MatchesAt(text: string, marker: string, at: int) {
    0 <= at && at + |marker| <= |text| && text[at..at + |marker|] == marker
  }

  /** `text.lastIndexOf(marker, from)` */
  function LastIndexOf(text: string, marker: string, from: int): (r: int)
    ensures r == -1 || (0 <= r <= from && MatchesAt(text, marker, r))
    decreases from + 1
  {
    if from < 0 then -1
    else if MatchesAt(text, marker, from) then from
    else LastIndexOf(text, marker, from - 1)
  }

  /** `text.indexOf(marker, from)` */
  function IndexOf(text: string, marker: string, from: nat): (r: int)
    ensures r == -1 || (from <= r && MatchesAt(text, marker, r))
    decreases |text| - from
  {
    if from > |text| then -1
    else if MatchesAt(text, marker, from) then from
    else IndexOf(text, marker, from + 1)
  }

  function BoundaryAmong(text: string, minimum: int, target: nat, markers: seq<string>): int {
    if markers == [] then target
    else
      var boundary := LastIndexOf(text, markers[0], target);
      if boundary >= minimum then boundary + |markers[0]|
      else BoundaryAmong(text, minimum, target, markers[1..])
  }

  function BoundaryBefore(text: string, start: nat, target: nat): int
    requires start <= target
  {
    BoundaryAmong(text, start + (target - start) * 6 / 10, target, MARKERS)
  }

  function BoundaryAfter(text: string, target: nat, maximum: nat): nat {
    var boundary := IndexOf(text, " ", target);
    if boundary != -1 && boundary < maximum then boundary + 1 else target
  }

  predicate ValidOptions(maxCharacters: int, overlapCharacters: int) {
    maxCharacters >= 200 && 0 <= overlapCharacters && 2 * overlapCharacters < maxCharacters
  }

  /** Where the chunk starting at `start` ends. */
  function ChunkEnd(text: string, start: nat, maxCharacters: nat): int
    requires start <= |text|
  {
    var target := Min(start + maxCharacters, |text|);
    if target == |text| then |text| else BoundaryBefore(text, start, target)
  }

  /** Where the chunk after one that ends at `end` starts. */
  function NextStart(text: string, end: nat, overlapCharacters: nat): nat {
    var proposed := BoundaryAfter(text, if end < overlapCharacters then 0 else end - overlapCharacters, end);
    if proposed >= end then end else proposed
  }

  /** A chunk that is not the last ends past 60% of the limit and at most two characters over it,
      and the next chunk starts inside it or at its end, always further on. */
  lemma Progress(text: string, start: nat, maxCharacters: nat, overlapCharacters: nat)
    requires ValidOptions(maxCharacters, overlapCharacters) && start < |text|
    ensures var end := ChunkEnd(text, start, maxCharacters);
            && start < end <= |text| && end <= start + maxCharacters + 2
            && (end < |text| ==>
                  start < NextStart(text, end, overlapCharacters) <= end <= NextStart(text, end, overlapCharacters)
                  + overlapCharacters)
  {
    var target := Min(start + maxCharacters, |text|);
    if target < |text| {
      BoundaryAmongBounds(text, start + (target - start) * 6 / 10, target, MARKERS);
    }
  }

  lemma {:induction false} BoundaryAmongBounds(text: string, minimum: int, target: nat, markers: seq<string>)
    requires 0 <= minimum <= target <= |text|
    requires forall i :: 0 <= i < |markers| ==> 1 <= |markers[i]| <= 2
    ensures minimum <= BoundaryAmong(text, minimum, target, markers) <= Min(target + 2, |text|)
  {
    if markers != [] {
      BoundaryAmongBounds(text, minimum, target, markers[1..]);
    }
  }

  /** The chunks from `start` on, numbered from `index`. */
  function ChunksFrom(text: string, start: nat, index: nat, maxCharacters: nat, overlapCharacters: nat): seq<TextChunk>
    requires ValidOptions(maxCharacters, overlapCharacters)
    decreases |text| - start
  {
    if start >= |text| then []
    else
      Progress(text, start, maxCharacters, overlapCharacters);
      var end := ChunkEnd(text, start, maxCharacters);
      var chunk := TextChunk(index, start, end, text[start..end]);
      if end == |text| then [chunk]
      else [chunk] + ChunksFrom(text, NextStart(text, end, overlapCharacters), index + 1, maxCharacters,
                                overlapCharacters)
  }

  lemma ChunksStep(text: string, start: nat, index: nat, maxCharacters: nat, overlapCharacters: nat)
    requires ValidOptions(maxCharacters, overlapCharacters) && start < |text|
    ensures var end := ChunkEnd(text, start, maxCharacters);
            var cs := ChunksFrom(text, start, index, maxCharacters, overlapCharacters);
            && start < end <= |text| && end <= start + maxCharacters + 2
            && cs != [] && cs[0] == TextChunk(index, start, end, text[start..end])
            && (end == |text| ==> cs[1..] == [])
            && (end < |text| ==>
                  && start < NextStart(text, end, overlapCharacters) <= end <= NextStart(text, end, overlapCharacters)
                     + overlapCharacters
                  && cs[1..] == ChunksFrom(text, NextStart(text, end, overlapCharacters), index + 1, maxCharacters,
                                           overlapCharacters))
  {
    Progress(text, start, maxCharacters, overlapCharacters);
  }

  /** `chunkText(text)` with its default options. */
  function Chunks(text: string): seq<TextChunk> {
    ChunksFrom(text, 0, 0, MAX_CHARACTERS, OVERLAP_CHARACTERS)
  }

  /** `chunkText`: option errors first, then the loop. */
  method ChunkText(text: string, maxCharacters: int, overlapCharacters: int) returns (r: Option<seq<TextChunk>>)
    ensures r.Some? <==> ValidOptions(maxCharacters, overlapCharacters)
    ensures r.Some? ==> r.value == ChunksFrom(text, 0, 0, maxCharacters, overlapCharacters)
  {
    if maxCharacters < 200 {
      return None;
    }
    if overlapCharacters < 0 || 2 * overlapCharacters >= maxCharacters {
      return None;
    }
    var chunks: seq<TextChunk> := [];
    var startOffset := 0;
    ghost var all := ChunksFrom(text, 0, 0, maxCharacters, overlapCharacters);
    while startOffset < |text|
      invariant all == chunks + ChunksFrom(text, startOffset, |chunks|, maxCharacters, overlapCharacters)
      decreases |text| - startOffset
    {
      ChunksStep(text, startOffset, |chunks|, maxCharacters, overlapCharacters);
      ghost var rest := ChunksFrom(text, startOffset, |chunks|, maxCharacters, overlapCharacters);
      var endOffset := ChunkEnd(text, startOffset, maxCharacters);
      var chunk := TextChunk(|chunks|, startOffset, endOffset, text[startOffset..endOffset]);
      assert chunks + rest == chunks + [chunk] + rest[1..];
      chunks := chunks + [chunk];
      if endOffset == |text| {
        assert all == chunks;
        return Some(chunks);
      }
      startOffset := NextStart(text, endOffset, overlapCharacters);
    }
    return Some(chunks);
  }

  lemma {:induction false} ChunkIndices(text: string, start: nat, index: nat, maxCharacters: nat,
                                        overlapCharacters: nat)
    requires ValidOptions(maxCharacters, overlapCharacters)
    ensures NumberedFrom(ChunksFrom(text, start, index, maxCharacters, overlapCharacters), index)
    decreases |text| - start
  {
    if start < |text| {
      ChunksStep(text, start, index, maxCharacters, overlapCharacters);
      var cs := ChunksFrom(text, start, index, maxCharacters, overlapCharacters);
      assert forall i :: 0 < i < |cs| ==> cs[i] == cs[1..][i - 1];
      var end := ChunkEnd(text, start, maxCharacters);
      if end < |text| {
        ChunkIndices(text, NextStart(text, end, overlapCharacters), index + 1, maxCharacters, overlapCharacters);
      }
    }
  }

  /** The text with the overlaps cut out of the chunks again. */
  function Stitch(chunks: seq<TextChunk>, from: nat): string
    decreases |chunks|
  {
    if chunks == [] then ""
    else
      var c := chunks[0];
      if c.startOffset <= from <= c.startOffset + |c.text| then
        c.text[from - c.startOffset..] + Stitch(chunks[1..], c.endOffset)
      else ""
  }

  /** Every chunk is the slice its offsets name, is not empty, and is at most two characters over the limit. */
  ghost predicate WellCut(text: string, maxCharacters: nat, c: TextChunk) {
    && c.startOffset < c.endOffset <= |text|
    && c.text == text[c.startOffset..c.endOffset]
    && |c.text| <= maxCharacters + 2
  }

  /** A chunk starts inside or right after the one before it, sharing at most `overlapCharacters`. */
  ghost predicate Follows(overlapCharacters: nat, c: TextChunk, d: TextChunk) {
    d.index == c.index + 1 && d.startOffset <= c.endOffset <= d.startOffset + overlapCharacters
  }

  lemma {:induction false} ChunksAreWellCut(text: string, start: nat, index: nat, maxCharacters: nat,
                                            overlapCharacters: nat)
    requires ValidOptions(maxCharacters, overlapCharacters)
    ensures var cs := ChunksFrom(text, start, index, maxCharacters, overlapCharacters);
            && (forall i :: 0 <= i < |cs| ==> WellCut(text, maxCharacters, cs[i]))
            && (forall i :: 0 < i < |cs| ==> Follows(overlapCharacters, cs[i - 1], cs[i]))
    decreases |text| - start
  {
    if start < |text| {
      ChunksStep(text, start, index, maxCharacters, overlapCharacters);
      var end := ChunkEnd(text, start, maxCharacters);
      var cs := ChunksFrom(text, start, index, maxCharacters, overlapCharacters);
      if end < |text| {
        var next := NextStart(text, end, overlapCharacters);
        ChunksAreWellCut(text, next, index + 1, maxCharacters, overlapCharacters);
        ChunksStep(text, next, index + 1, maxCharacters, overlapCharacters);
      }
      forall i | 0 <= i < |cs|
        ensures WellCut(text, maxCharacters, cs[i]) && (0 < i ==> Follows(overlapCharacters, cs[i - 1], cs[i]))
      {
        if i > 0 {
          assert cs[i] == cs[1..][i - 1];
          assert i > 1 ==> cs[i - 1] == cs[1..][i - 2];
        }
      }
    }
  }

  /** Chunking loses nothing: the text can be put together again from the chunks. */
  lemma {:induction false} ChunksCoverText(text: string, start: nat, index: nat, maxCharacters: nat,
                                           overlapCharacters: nat, from: nat)
    requires ValidOptions(maxCharacters, overlapCharacters)
    requires start <= from <= |text|
    requires start < |text| ==> from <= ChunkEnd(text, start, maxCharacters)
    ensures Stitch(ChunksFrom(text, start, index, maxCharacters, overlapCharacters), from) == text[from..]
    decreases |text| - start
  {
    if start < |text| {
      ChunksStep(text, start, index, maxCharacters, overlapCharacters);
      var end := ChunkEnd(text, start, maxCharacters);
      assert text[start..end][from - start..] + text[end..] == text[from..];
      if end < |text| {
        NextReaches(text, start, maxCharacters, overlapCharacters);
        ChunksCoverText(text, NextStart(text, end, overlapCharacters), index + 1, maxCharacters, overlapCharacters,
                        end);
      }
    }
  }

  /** Every character from `start` on is in some chunk. */
  lemma {:induction false} EveryCharacterIsInAChunk(text: string, start: nat, index: nat, maxCharacters: nat,
                                                    overlapCharacters: nat, p: nat)
    requires ValidOptions(maxCharacters, overlapCharacters) && start <= p < |text|
    ensures var cs := ChunksFrom(text, start, index, maxCharacters, overlapCharacters);
            exists i :: 0 <= i < |cs| && cs[i].startOffset <= p < cs[i].endOffset
    decreases |text| - start
  {
    ChunksStep(text, start, index, maxCharacters, overlapCharacters);
    var cs, end := ChunksFrom(text, start, index, maxCharacters, overlapCharacters),
                   ChunkEnd(text, start, maxCharacters);
    if p < end {
      assert cs[0].startOffset <= p < cs[0].endOffset;
    } else {
      EveryCharacterIsInAChunk(text, NextStart(text, end, overlapCharacters), index + 1, maxCharacters,
                               overlapCharacters, p);
      var i :| 0 <= i < |cs[1..]| && cs[1..][i].startOffset <= p < cs[1..][i].endOffset;
      assert cs[i + 1] == cs[1..][i];
    }
  }

  /** The next chunk reaches past the end of this one. */
  lemma NextReaches(text: string, start: nat, maxCharacters: nat, overlapCharacters: nat)
    requires ValidOptions(maxCharacters, overlapCharacters) && start < |text|
    requires ChunkEnd(text, start, maxCharacters) < |text|
    ensures var end := ChunkEnd(text, start, maxCharacters);
            start < end && end <= ChunkEnd(text, NextStart(text, end, overlapCharacters), maxCharacters)
  {
    Progress(text, start, maxCharacters, overlapCharacters);
    var end := ChunkEnd(text, start, maxCharacters);
    var next := NextStart(text, end, overlapCharacters);
    var target := Min(next + maxCharacters, |text|);
    if target < |text| {
      BoundaryAmongBounds(text, next + (target - next) * 6 / 10, target, MARKERS);
    }
  }

  // ---- When a chunk is longer than the limit

  /** The marker occurs at some position from `low` to `high`. */
  ghost predicate Occurs(text: string, marker: string, low: int, high: int) {
    exists at :: low <= at <= high && MatchesAt(text, marker, at)
  }

  /** `lastIndexOf` finds an occurrence in the range exactly when there is one, and then the last. */
  lemma {:induction false} LastIndexOfIsLast(text: string, marker: string, low: nat, from: int)
    ensures LastIndexOf(text, marker, from) >= low <==> Occurs(text, marker, low, from)
    ensures forall at :: LastIndexOf(text, marker, from) < at <= from ==> !MatchesAt(text, marker, at)
    decreases from + 1
  {
    if from >= 0 && !MatchesAt(text, marker, from) {
      LastIndexOfIsLast(text, marker, low, from - 1);
    }
  }

  /** The marker that decides where a chunk ends reaches past the limit: a blank line at the limit or one before it; a
      full stop there, if no blank line starts in the last 40%; or a space at the limit, if neither does. */
  ghost predicate MarkerOverruns(text: string, start: nat, maxCharacters: nat) {
    var target, low := start + maxCharacters, start + maxCharacters * 6 / 10;
    && target < |text|
    && (|| MatchesAt(text, "\n\n", target) || MatchesAt(text, "\n\n", target - 1)
        || (!Occurs(text, "\n\n", low, target)
            && (MatchesAt(text, ". ", target) || MatchesAt(text, ". ", target - 1)
                || (!Occurs(text, ". ", low, target) && MatchesAt(text, " ", target)))))
  }

  /** `maxCharacters` is not a hard limit: exactly then is a chunk longer. */
  lemma LimitExceededExactly(text: string, start: nat, maxCharacters: nat)
    requires start < |text| && maxCharacters >= 200
    ensures ChunkEnd(text, start, maxCharacters) - start > maxCharacters <==> MarkerOverruns(text, start, maxCharacters)
  {
    hide MatchesAt, Occurs;
    var target, low := start + maxCharacters, start + maxCharacters * 6 / 10;
    if target < |text| {
      BoundaryAmongThree(text, low, target);
      LastIndexOfIsLast(text, "\n\n", low, target);
      LastIndexOfIsLast(text, ". ", low, target);
      LastIndexOfIsLast(text, " ", low, target);
    }
  }

  lemma BoundaryAmongThree(text: string, low: nat, target: nat)
    ensures var blank, stop, space := LastIndexOf(text, "\n\n", target), LastIndexOf(text, ". ", target),
                                      LastIndexOf(text, " ", target);
            BoundaryAmong(text, low, target, MARKERS) ==
            if blank >= low then blank + 2 else if stop >= low then stop + 2 else if space >= low then space + 1
            else target
  {
    BoundaryStep(text, low, target, MARKERS);
    BoundaryStep(text, low, target, [". ", " "]);
    BoundaryStep(text, low, target, [" "]);
    hide LastIndexOf, BoundaryAmong;
    assert MARKERS[1..] == [". ", " "] && [". ", " "][1..] == [" "];
    assert BoundaryAmong(text, low, target, []) == target by { NoMarkers(text, low, target); }
    assert [" "][1..] == [];
  }

  lemma BoundaryStep(text: string, low: nat, target: nat, markers: seq<string>)
    requires markers != []
    ensures var boundary := LastIndexOf(text, markers[0], target);
            BoundaryAmong(text, low, target, markers) ==
            if boundary >= low then boundary + |markers[0]| else BoundaryAmong(text, low, target, markers[1..])
  {
  }

  lemma NoMarkers(text: string, low: nat, target: nat)
    ensures BoundaryAmong(text, low, target, []) == target
  {
  }

  /** For every chunk of a text: it is longer than the limit if and only if its marker overruns. */
  lemma ChunksExceedExactly(text: string, maxCharacters: nat, overlapCharacters: nat, i: nat)
    requires ValidOptions(maxCharacters, overlapCharacters)
    requires i < |ChunksFrom(text, 0, 0, maxCharacters, overlapCharacters)|
    ensures var c := ChunksFrom(text, 0, 0, maxCharacters, overlapCharacters)[i];
            |c.text| > maxCharacters <==> MarkerOverruns(text, c.startOffset, maxCharacters)
  {
    hide MarkerOverruns;
    ChunkAt(text, 0, 0, maxCharacters, overlapCharacters, i);
    LimitExceededExactly(text, ChunksFrom(text, 0, 0, maxCharacters, overlapCharacters)[i].startOffset, maxCharacters);
  }

  /** Every chunk is the one that its own start determines. */
  lemma {:induction false} ChunkAt(text: string, start: nat, index: nat, maxCharacters: nat, overlapCharacters: nat,
                                   i: nat)
    requires ValidOptions(maxCharacters, overlapCharacters)
    requires i < |ChunksFrom(text, start, index, maxCharacters, overlapCharacters)|
    ensures var c := ChunksFrom(text, start, index, maxCharacters, overlapCharacters)[i];
            && c.startOffset < |text| && c.endOffset == ChunkEnd(text, c.startOffset, maxCharacters)
            && |c.text| == c.endOffset - c.startOffset
    decreases i
  {
    hide ChunkEnd, NextStart;
    ChunksStep(text, start, index, maxCharacters, overlapCharacters);
    var cs, end := ChunksFrom(text, start, index, maxCharacters, overlapCharacters),
                   ChunkEnd(text, start, maxCharacters);
    if i > 0 {
      assert cs[i] == cs[1..][i - 1];
      ChunkAt(text, NextStart(text, end, overlapCharacters), index + 1, maxCharacters, overlapCharacters, i - 1);
    }
  }

  // ---- Where chunks end and start

  /** The last place from `low` to `high` at which the marker occurs. */
  predicate LastMatch(text: string, marker: string, low: int, high: int, at: int) {
    && low <= at <= high && MatchesAt(text, marker, at)
    && forall p :: at < p <= high ==> !MatchesAt(text, marker, p)
  }

  /** A chunk that is not the last ends after the last blank line that starts in the upper part of the limit; without
      one, after the last full stop with a space; without one, after the last space; and without one, at the limit. */
  lemma ChunkEndIs(text: string, start: nat, maxCharacters: nat, at: nat)
    requires start + maxCharacters < |text|
    ensures var high := start + maxCharacters;
            var low, end := start + maxCharacters * 6 / 10, ChunkEnd(text, start, maxCharacters);
            && (LastMatch(text, "\n\n", low, high, at) ==> end == at + 2)
            && (!Occurs(text, "\n\n", low, high) && LastMatch(text, ". ", low, high, at) ==> end == at + 2)
            && (!Occurs(text, "\n\n", low, high) && !Occurs(text, ". ", low, high)
                && LastMatch(text, " ", low, high, at)
                ==> end == at + 1)
            && (!Occurs(text, "\n\n", low, high) && !Occurs(text, ". ", low, high) && !Occurs(text, " ", low, high)
                ==> end == high)
  {
    hide MatchesAt, Occurs, LastMatch;
    var high, low := start + maxCharacters, start + maxCharacters * 6 / 10;
    BoundaryAmongThree(text, low, high);
    LastIndexOfIsLast(text, "\n\n", low, high);
    LastIndexOfIsLast(text, ". ", low, high);
    LastIndexOfIsLast(text, " ", low, high);
    OnlyLast(text, "\n\n", low, high, at);
    OnlyLast(text, ". ", low, high, at);
    OnlyLast(text, " ", low, high, at);
  }

  lemma OnlyLast(text: string, marker: string, low: nat, high: nat, at: nat)
    ensures LastMatch(text, marker, low, high, at) ==> low <= at == LastIndexOf(text, marker, high)
  {
    LastIndexOfIsLast(text, marker, low, high);
  }

  /** The next chunk starts after the first space among the last `overlapCharacters` characters, and with all of them if
      there is no space. */
  lemma NextStartIs(text: string, end: nat, overlapCharacters: nat)
    requires end <= |text|
    ensures var base: nat := if end < overlapCharacters then 0 else end - overlapCharacters;
            var next := NextStart(text, end, overlapCharacters);
            if exists p :: base <= p < end && text[p] == ' ' then
              base < next <= end && text[next - 1] == ' ' && forall p :: base <= p < next - 1 ==> text[p] != ' '
            else next == base
  {
    var base: nat := if end < overlapCharacters then 0 else end - overlapCharacters;
    FirstSpace(text, base);
    if p :| base <= p < end && text[p] == ' ' {
      assert MatchesAt(text, " ", p);
    }
  }

  lemma {:induction false} FirstSpace(text: string, from: nat)
    ensures var i := IndexOf(text, " ", from);
            && (i == -1 ==> forall p :: from <= p < |text| ==> text[p] != ' ')
            && (i != -1 ==> from <= i < |text| && text[i] == ' ' && forall p :: from <= p < i ==> text[p] != ' ')
    decreases |text| - from
  {
    if from < |text| {
      assert MatchesAt(text, " ", from) <==> text[from] == ' ';
      FirstSpace(text, from + 1);
    }
  }

  /** It happens: a blank line at the limit is kept whole. */
  lemma LimitCanBeExceeded()
    ensures exists text: string :: |text| > 200 && MarkerOverruns(text, 0, 200) && ChunkEnd(text, 0, 200) == 202
  {
    var text := seq(300, i => if i == 200 || i == 201 then '\n' else 'a');
    assert text[200..202] == "\n\n" == MARKERS[0];
    assert LastIndexOf(text, MARKERS[0], 200) == 200;
    assert MatchesAt(text, "\n\n", 200);
    assert ChunkEnd(text, 0, 200) == 202;
  }

  ghost predicate NumberedFrom(cs: seq<TextChunk>, index: nat) {
    forall i :: 0 <= i < |cs| ==> cs[i].index == index + i
  }

  lemma ChunkNumbers(text: string)
    ensures NumberedFrom(Chunks(text), 0)
  {
    ChunkIndices(text, 0, 0, MAX_CHARACTERS, OVERLAP_CHARACTERS);
  }
}
