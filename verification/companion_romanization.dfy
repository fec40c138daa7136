/**
Lyrics that carry their own romanization: a line in another script, and right behind it, at the same
time, its transcription. One pass counts such pairs, and only if there are enough of them a second,
quite different pass takes the transcriptions out.
*/
module CompanionRomanization {
  import opened Basics

  datatype Line = Line(text: string, timeMs: int, words: nat)

  /** The script detector: whether a text is in Latin script. */
  type Detector = string -> bool

  const MIN_PAIRED_LINES := 3
  const TOLERANCE_MS := 50

  predicate IsCandidate(latin: Detector, line: Line) {
    Trim(line.text) != "" && line.words == 0 && latin(Trim(line.text))
  }

  predicate NeedsRomanization(latin: Detector, line: Line) {
    Trim(line.text) != "" && !latin(Trim(line.text))
  }

  predicate SharesTimestamp(a: Line, b: Line) {
    -TOLERANCE_MS <= b.timeMs - a.timeMs <= TOLERANCE_MS
  }

  predicate IsPair(latin: Detector, a: Line, b: Line) {
    SharesTimestamp(a, b) && NeedsRomanization(latin, a) && IsCandidate(latin, b)
  }

  /** Line `i` is the right-hand member of a pair. */
  predicate Absorbed(latin: Detector, lines: seq<Line>, i: int) {
    0 < i < |lines| && IsPair(latin, lines[i - 1], lines[i])
  }

  function PairCount(latin: Detector, lines: seq<Line>): nat {
    if lines == [] then 0
    else PairCount(latin, lines[..|lines| - 1]) + if Absorbed(latin, lines, |lines| - 1) then 1 else 0
  }

  function PrimaryCount(latin: Detector, lines: seq<Line>): nat {
    if lines == [] then 0
    else PrimaryCount(latin, lines[..|lines| - 1])
         + if NeedsRomanization(latin, lines[|lines| - 1]) then 1 else 0
  }

  datatype Split = Split(lines: seq<Line>, romanized: seq<string>, complete: bool)

  /** The kept lines, and for each its transcription or nothing: the split said in terms of the pairs. */
  function Parts(latin: Detector, lines: seq<Line>): (parts: (seq<Line>, seq<string>))
    ensures |parts.0| == |parts.1|
    ensures lines != [] ==> parts.0 != []
  {
    if lines == [] then ([], [])
    else
      var n := |lines| - 1;
      var before := Parts(latin, lines[..n]);
      if Absorbed(latin, lines, n) then (before.0, before.1[|before.1| - 1 := Trim(lines[n].text)])
      else (before.0 + [lines[n]], before.1 + [""])
  }

  predicate IsTaken(latin: Detector, lines: seq<Line>) {
    PairCount(latin, lines) >= MIN_PAIRED_LINES
    && PrimaryCount(latin, lines) > 0
    && 2 * PairCount(latin, lines) >= PrimaryCount(latin, lines)
  }

  predicate AllRomanized(latin: Detector, kept: seq<Line>, romanized: seq<string>)
    requires |kept| == |romanized|
  {
    forall i | 0 <= i < |kept| :: NeedsRomanization(latin, kept[i]) ==> romanized[i] != ""
  }

  // ---------- the two passes ----------

  method CountTimestampPairs(latin: Detector, lines: seq<Line>) returns (pairs: nat)
    ensures pairs == PairCount(latin, lines)
  {
    pairs := 0;
    if lines == [] {
      return;
    }
    var i := 1;
    assert lines[..1][..0] == [];
    while i < |lines|
      invariant 1 <= i <= |lines|
      invariant pairs == PairCount(latin, lines[..i])
    {
      assert lines[..i + 1][..i] == lines[..i];
      if IsPair(latin, lines[i - 1], lines[i]) {
        pairs := pairs + 1;
      }
      i := i + 1;
    }
    assert lines[..|lines|] == lines;
  }

  method CountPrimaries(latin: Detector, lines: seq<Line>) returns (count: nat)
    ensures count == PrimaryCount(latin, lines)
  {
    count := 0;
    for i := 0 to |lines|
      invariant count == PrimaryCount(latin, lines[..i])
    {
      assert lines[..i + 1][..i] == lines[..i];
      if NeedsRomanization(latin, lines[i]) {
        count := count + 1;
      }
    }
    assert lines[..|lines|] == lines;
  }

  /** What the second pass knows of the line before: kept and still without a transcription, or absorbed. */
  lemma {:induction false} LastKept(latin: Detector, lines: seq<Line>)
    requires lines != []
    ensures var (kept, romanized) := Parts(latin, lines); var n := |lines| - 1;
            if Absorbed(latin, lines, n) then romanized[|kept| - 1] != ""
            else kept[|kept| - 1] == lines[n] && romanized[|kept| - 1] == ""
  {
  }

  /** The second pass: it looks only at the last kept line and at whether that line has its transcription. */
  method TakeOut(latin: Detector, lines: seq<Line>) returns (kept: seq<Line>, romanized: seq<string>)
    ensures (kept, romanized) == Parts(latin, lines)
  {
    kept, romanized := [], [];
    for i := 0 to |lines|
      invariant (kept, romanized) == Parts(latin, lines[..i])
    {
      assert lines[..i + 1][..i] == lines[..i];
      if i > 0 {
        LastKept(latin, lines[..i]);
        assert lines[..i][i - 1] == lines[i - 1];
      }
      PartsGrow(latin, lines[..i + 1]);
      var last := |kept| - 1;
      if last >= 0 && romanized[last] == "" && IsPair(latin, kept[last], lines[i]) {
        romanized := romanized[last := Trim(lines[i].text)];
      } else {
        kept, romanized := kept + [lines[i]], romanized + [""];
      }
    }
    assert lines[..|lines|] == lines;
  }

  // ---------- the answer, read off the lines ----------

  /** Two lines at most 50 ms apart: text that is not Latin, and behind it untimed text that is. */
  predicate Belong(latin: Detector, a: Line, b: Line) {
    var shown, behind := Trim(a.text), Trim(b.text);
    |shown| > 0 && !latin(shown) && |behind| > 0 && latin(behind) && b.words == 0
    && (if a.timeMs <= b.timeMs then b.timeMs - a.timeMs <= 50 else a.timeMs - b.timeMs <= 50)
  }

  predicate BelongsBefore(latin: Detector, lines: seq<Line>, i: nat) {
    0 < i < |lines| && Belong(latin, lines[i - 1], lines[i])
  }

  /** Where the lines stand that belong to the line before them. */
  ghost function PairsAt(latin: Detector, lines: seq<Line>): set<nat> {
    set i: nat | i < |lines| && BelongsBefore(latin, lines, i)
  }

  /** Where the lines stand whose text is not Latin. */
  ghost function PrimariesAt(latin: Detector, lines: seq<Line>): set<nat> {
    set i: nat | i < |lines| && |Trim(lines[i].text)| > 0 && !latin(Trim(lines[i].text))
  }

  lemma AbsorbedAt(latin: Detector, lines: seq<Line>, i: nat)
    ensures Absorbed(latin, lines, i) <==> i in PairsAt(latin, lines)
  {
  }

  lemma PairsGrow(latin: Detector, lines: seq<Line>)
    requires lines != []
    ensures var n := |lines| - 1;
            PairsAt(latin, lines) == PairsAt(latin, lines[..n]) + (if Absorbed(latin, lines, n) then {n} else {})
            && n !in PairsAt(latin, lines[..n])
  {
    var n := |lines| - 1;
    AbsorbedAt(latin, lines, n);
    var pairs, before := PairsAt(latin, lines), PairsAt(latin, lines[..n]);
    forall i: nat | i < n ensures i in pairs <==> i in before {
      assert 0 < i ==> lines[..n][i - 1] == lines[i - 1] && lines[..n][i] == lines[i];
    }
  }

  lemma {:induction false} PairsAreCounted(latin: Detector, lines: seq<Line>)
    ensures PairCount(latin, lines) == |PairsAt(latin, lines)|
    decreases |lines|
  {
    if lines == [] {
      assert PairsAt(latin, lines) == {};
    } else {
      PairsAreCounted(latin, lines[..|lines| - 1]);
      PairsGrow(latin, lines);
    }
  }

  lemma PrimariesGrow(latin: Detector, lines: seq<Line>)
    requires lines != []
    ensures var n := |lines| - 1;
            PrimariesAt(latin, lines)
              == PrimariesAt(latin, lines[..n]) + (if NeedsRomanization(latin, lines[n]) then {n} else {})
            && n !in PrimariesAt(latin, lines[..n])
  {
  }

  lemma {:induction false} PrimariesAreCounted(latin: Detector, lines: seq<Line>)
    ensures PrimaryCount(latin, lines) == |PrimariesAt(latin, lines)|
    decreases |lines|
  {
    if lines == [] {
      assert PrimariesAt(latin, lines) == {};
    } else {
      PrimariesAreCounted(latin, lines[..|lines| - 1]);
      PrimariesGrow(latin, lines);
    }
  }

  /** There are at least three pairs, and at least half of the lines that are not Latin are in one. */
  ghost predicate EnoughPairs(latin: Detector, lines: seq<Line>) {
    3 <= |PairsAt(latin, lines)| && 0 < |PrimariesAt(latin, lines)|
    && |PrimariesAt(latin, lines)| <= |PairsAt(latin, lines)| + |PairsAt(latin, lines)|
  }

  /** The trimmed text behind position `p`, if the lines there are a pair. */
  ghost function Behind(latin: Detector, lines: seq<Line>, p: nat): string {
    if p + 1 in PairsAt(latin, lines) then Trim(lines[p + 1].text) else ""
  }

  ghost predicate Increasing(at: seq<nat>) {
    forall i, j :: 0 <= i < j < |at| ==> at[i] < at[j]
  }

  /** The positions that stay: all but the second of each pair. */
  ghost predicate Stay(latin: Detector, lines: seq<Line>, at: seq<nat>) {
    forall p: nat :: p in at <==> p < |lines| && p !in PairsAt(latin, lines)
  }

  /**
  What stays, at which positions, and with which transcription: all lines but the second of each pair, in
  order, and each with the trimmed text of the line behind it if the two are a pair.
  */
  ghost predicate PartsShown(latin: Detector, lines: seq<Line>, at: seq<nat>, kept: seq<Line>, romanized: seq<string>) {
    && |at| == |kept| == |romanized| && Increasing(at) && Stay(latin, lines, at)
    && (forall k :: 0 <= k < |at| ==>
          at[k] < |lines| && kept[k] == lines[at[k]] && romanized[k] == Behind(latin, lines, at[k]))
  }

  lemma {:induction false} PartsAre(latin: Detector, lines: seq<Line>) returns (at: seq<nat>)
    ensures PartsShown(latin, lines, at, Parts(latin, lines).0, Parts(latin, lines).1)
    decreases |lines|
  {
    if lines == [] {
      at := [];
    } else {
      var n := |lines| - 1;
      var (kept, romanized) := Parts(latin, lines[..n]);
      at := PartsAre(latin, lines[..n]);
      PartsGrow(latin, lines);
      if Absorbed(latin, lines, n) {
        PairShown(latin, lines, at, kept, romanized);
      } else {
        LineShown(latin, lines, at, kept, romanized);
        at := at + [n];
      }
    }
  }

  lemma PairShown(latin: Detector, lines: seq<Line>, at: seq<nat>, kept: seq<Line>, romanized: seq<string>)
    requires lines != [] && Absorbed(latin, lines, |lines| - 1)
    requires PartsShown(latin, lines[..|lines| - 1], at, kept, romanized)
    ensures |kept| > 0
    ensures PartsShown(latin, lines, at, kept, romanized[|kept| - 1 := Trim(lines[|lines| - 1].text)])
  {
    var n := |lines| - 1;
    PairsGrow(latin, lines);
    BeforeIsKept(latin, lines, at);
    forall k | 0 <= k < |at| - 1 ensures Behind(latin, lines, at[k]) == Behind(latin, lines[..n], at[k]) {
      assert at[k] < at[|at| - 1] == n - 1;
    }
    assert Behind(latin, lines, n - 1) == Trim(lines[n].text);
  }

  lemma LineShown(latin: Detector, lines: seq<Line>, at: seq<nat>, kept: seq<Line>, romanized: seq<string>)
    requires lines != [] && !Absorbed(latin, lines, |lines| - 1)
    requires PartsShown(latin, lines[..|lines| - 1], at, kept, romanized)
    ensures PartsShown(latin, lines, at + [|lines| - 1], kept + [lines[|lines| - 1]], romanized + [""])
  {
    var n := |lines| - 1;
    PairsGrow(latin, lines);
    forall k | 0 <= k < |at| ensures Behind(latin, lines, at[k]) == Behind(latin, lines[..n], at[k]) {
      assert at[k] in at;
    }
    assert Behind(latin, lines, n) == "";
    forall p: nat ensures p in at + [n] <==> p < |lines| && p !in PairsAt(latin, lines) {
      assert p in at + [n] <==> p in at || p == n;
    }
  }

  /** The line before the second of a pair is the last one kept. */
  lemma BeforeIsKept(latin: Detector, lines: seq<Line>, at: seq<nat>)
    requires lines != [] && Absorbed(latin, lines, |lines| - 1)
    requires Increasing(at) && Stay(latin, lines[..|lines| - 1], at)
    ensures |at| > 0 && at[|at| - 1] == |lines| - 2
  {
    var n := |lines| - 1;
    assert n - 1 !in PairsAt(latin, lines[..n]);
    assert n - 1 in at;
    var k :| 0 <= k < |at| && at[k] == n - 1;
    assert at[|at| - 1] in at;
  }

  method SplitCompanionRomanization(latin: Detector, lines: seq<Line>) returns (split: Split)
    ensures !IsTaken(latin, lines) ==> split == Split(lines, [], false)
    ensures IsTaken(latin, lines) ==>
              && (split.lines, split.romanized) == Parts(latin, lines)
              && |split.lines| == |split.romanized|
              && split.complete == AllRomanized(latin, split.lines, split.romanized)
    ensures !EnoughPairs(latin, lines) ==> split.lines == lines && split.romanized == [] && !split.complete
    ensures EnoughPairs(latin, lines) ==>
              && (exists at :: PartsShown(latin, lines, at, split.lines, split.romanized))
              && split.complete == (|PairsAt(latin, lines)| == |PrimariesAt(latin, lines)|)
  {
    PairsAreCounted(latin, lines);
    PrimariesAreCounted(latin, lines);
    CompleteExactlyWhen(latin, lines);
    ghost var at := PartsAre(latin, lines);
    var primaries := CountPrimaries(latin, lines);
    var pairs := CountTimestampPairs(latin, lines);
    if pairs < MIN_PAIRED_LINES || primaries == 0 || 2 * pairs < primaries {
      return Split(lines, [], false);
    }
    var kept, romanized := TakeOut(latin, lines);
    var complete := forall i | 0 <= i < |kept| :: NeedsRomanization(latin, kept[i]) ==> romanized[i] != "";
    split := Split(kept, romanized, complete);
  }

  // ---------- the passes agree ----------

  /** The lines taken out are exactly the counted pairs' right-hand members. */
  lemma {:induction false} PassesAgree(latin: Detector, lines: seq<Line>)
    ensures |Parts(latin, lines).0| + PairCount(latin, lines) == |lines|
    decreases |lines|
  {
    if lines != [] {
      PassesAgree(latin, lines[..|lines| - 1]);
    }
  }

  /** The lines that are not absorbed, in order. */
  function Unabsorbed(latin: Detector, lines: seq<Line>): seq<Line> {
    if lines == [] then []
    else Unabsorbed(latin, lines[..|lines| - 1])
         + if Absorbed(latin, lines, |lines| - 1) then [] else [lines[|lines| - 1]]
  }

  function Needing(latin: Detector, lines: seq<Line>): seq<Line> {
    if lines == [] then []
    else Needing(latin, lines[..|lines| - 1])
         + if NeedsRomanization(latin, lines[|lines| - 1]) then [lines[|lines| - 1]] else []
  }

  lemma {:induction false} NeedingAppend(latin: Detector, lines: seq<Line>, line: Line)
    ensures Needing(latin, lines + [line])
         == Needing(latin, lines) + if NeedsRomanization(latin, line) then [line] else []
  {
    assert (lines + [line])[..|lines|] == lines;
  }

  /** Every line that needs a romanization is kept, and in its order; what is kept is what no pair absorbs. */
  lemma {:induction false} NoPrimaryIsLost(latin: Detector, lines: seq<Line>)
    ensures Parts(latin, lines).0 == Unabsorbed(latin, lines)
    ensures Needing(latin, Parts(latin, lines).0) == Needing(latin, lines)
    decreases |lines|
  {
    if lines != [] {
      var n := |lines| - 1;
      NoPrimaryIsLost(latin, lines[..n]);
      NeedingAppend(latin, Parts(latin, lines[..n]).0, lines[n]);
    }
  }

  /** How many kept lines have a transcription, and how many still lack the one they need. */
  function Romanized(romanized: seq<string>): nat {
    if romanized == [] then 0
    else Romanized(romanized[..|romanized| - 1]) + if romanized[|romanized| - 1] != "" then 1 else 0
  }

  lemma RomanizedAdd(romanized: seq<string>, text: string)
    ensures Romanized(romanized + [text]) == Romanized(romanized) + if text != "" then 1 else 0
  {
    assert (romanized + [text])[..|romanized|] == romanized;
  }

  lemma RomanizedSet(romanized: seq<string>, text: string)
    requires romanized != [] && romanized[|romanized| - 1] == "" && text != ""
    ensures Romanized(romanized[|romanized| - 1 := text]) == Romanized(romanized) + 1
  {
    var last := |romanized| - 1;
    assert romanized[last := text][..last] == romanized[..last];
  }

  /** Only lines that need one have a transcription. */
  ghost predicate Fits(latin: Detector, kept: seq<Line>, romanized: seq<string>)
    requires |kept| == |romanized|
  {
    forall i | 0 <= i < |kept| :: romanized[i] != "" ==> NeedsRomanization(latin, kept[i])
  }

  /** How the last line changes the parts: it goes to the line before it, or is kept as it is. */
  lemma PartsGrow(latin: Detector, lines: seq<Line>)
    requires lines != []
    ensures var n := |lines| - 1; var (kept, romanized) := Parts(latin, lines[..n]); var last := |kept| - 1;
            if Absorbed(latin, lines, n) then
              && last >= 0 && kept[last] == lines[n - 1] && romanized[last] == "" && Trim(lines[n].text) != ""
              && NeedsRomanization(latin, lines[n - 1])
              && Parts(latin, lines) == (kept, romanized[last := Trim(lines[n].text)])
            else Parts(latin, lines) == (kept + [lines[n]], romanized + [""])
  {
    var n := |lines| - 1;
    if Absorbed(latin, lines, n) {
      LastKept(latin, lines[..n]);
    }
  }

  /** Transcriptions go to lines that need one, and there is one for each pair. */
  lemma {:induction false} TranscriptionsFit(latin: Detector, lines: seq<Line>)
    ensures var (kept, romanized) := Parts(latin, lines);
            Fits(latin, kept, romanized) && Romanized(romanized) == PairCount(latin, lines)
    decreases |lines|
  {
    if lines != [] {
      var n := |lines| - 1;
      var (kept, romanized) := Parts(latin, lines[..n]);
      TranscriptionsFit(latin, lines[..n]);
      PartsGrow(latin, lines);
      if Absorbed(latin, lines, n) {
        RomanizedSet(romanized, Trim(lines[n].text));
      } else {
        RomanizedAdd(romanized, "");
      }
    }
  }

  lemma AllRomanizedPrefix(latin: Detector, kept: seq<Line>, romanized: seq<string>)
    requires |kept| == |romanized| && kept != []
    ensures var n := |kept| - 1;
            && (AllRomanized(latin, kept, romanized) <==>
                  && AllRomanized(latin, kept[..n], romanized[..n])
                  && (NeedsRomanization(latin, kept[n]) ==> romanized[n] != ""))
            && (Fits(latin, kept, romanized) ==> Fits(latin, kept[..n], romanized[..n]))
  {
    var n := |kept| - 1;
    if AllRomanized(latin, kept[..n], romanized[..n]) && (NeedsRomanization(latin, kept[n]) ==> romanized[n] != "") {
      forall i | 0 <= i <= n && NeedsRomanization(latin, kept[i]) ensures romanized[i] != "" {
        assert i < n ==> kept[..n][i] == kept[i] && romanized[..n][i] == romanized[i];
      }
    }
    if AllRomanized(latin, kept, romanized) {
      forall i | 0 <= i < n && NeedsRomanization(latin, kept[..n][i]) ensures romanized[..n][i] != "" {
        assert kept[..n][i] == kept[i];
      }
    }
  }

  /** If only needing lines are romanized, all needing lines are exactly when the two counts are equal. */
  lemma {:induction false} CountsDecide(latin: Detector, kept: seq<Line>, romanized: seq<string>)
    requires |kept| == |romanized| && Fits(latin, kept, romanized)
    ensures Romanized(romanized) <= |Needing(latin, kept)|
    ensures AllRomanized(latin, kept, romanized) <==> Romanized(romanized) == |Needing(latin, kept)|
    decreases |kept|
  {
    if kept != [] {
      var n := |kept| - 1;
      AllRomanizedPrefix(latin, kept, romanized);
      CountsDecide(latin, kept[..n], romanized[..n]);
      assert romanized[n] != "" ==> NeedsRomanization(latin, kept[n]);
    }
  }

  lemma {:induction false} PrimariesAreNeeding(latin: Detector, lines: seq<Line>)
    ensures PrimaryCount(latin, lines) == |Needing(latin, lines)|
    decreases |lines|
  {
    if lines != [] {
      PrimariesAreNeeding(latin, lines[..|lines| - 1]);
    }
  }

  /** The split is complete exactly when every line that needs a romanization is half of a pair. */
  lemma CompleteExactlyWhen(latin: Detector, lines: seq<Line>)
    ensures var (kept, romanized) := Parts(latin, lines);
            AllRomanized(latin, kept, romanized) <==> PairCount(latin, lines) == PrimaryCount(latin, lines)
  {
    var (kept, romanized) := Parts(latin, lines);
    TranscriptionsFit(latin, lines);
    CountsDecide(latin, kept, romanized);
    NoPrimaryIsLost(latin, lines);
    PrimariesAreNeeding(latin, lines);
  }

  /** The texts again: each kept line, followed by its transcription if it has one. */
  function Interleaved(kept: seq<Line>, romanized: seq<string>): seq<string>
    requires |kept| == |romanized|
  {
    if kept == [] then []
    else
      var n := |kept| - 1;
      Interleaved(kept[..n], romanized[..n]) + [kept[n].text] + if romanized[n] == "" then [] else [romanized[n]]
  }

  function Texts(latin: Detector, lines: seq<Line>): seq<string> {
    seq(|lines|, i requires 0 <= i < |lines| =>
      if Absorbed(latin, lines, i) then Trim(lines[i].text) else lines[i].text)
  }

  lemma TextsAppend(latin: Detector, lines: seq<Line>)
    requires lines != []
    ensures var n := |lines| - 1;
            Texts(latin, lines) == Texts(latin, lines[..n])
              + [if Absorbed(latin, lines, n) then Trim(lines[n].text) else lines[n].text]
  {
    var n := |lines| - 1;
    var before, texts := Texts(latin, lines[..n]), Texts(latin, lines);
    forall i | 0 <= i < n ensures before[i] == texts[i] {
      assert Absorbed(latin, lines[..n], i) <==> Absorbed(latin, lines, i);
    }
  }

  lemma InterleavedAdd(kept: seq<Line>, romanized: seq<string>, line: Line)
    requires |kept| == |romanized|
    ensures Interleaved(kept + [line], romanized + [""]) == Interleaved(kept, romanized) + [line.text]
  {
    assert (kept + [line])[..|kept|] == kept && (romanized + [""])[..|kept|] == romanized;
  }

  lemma InterleavedSet(kept: seq<Line>, romanized: seq<string>, text: string)
    requires |kept| == |romanized| && kept != [] && romanized[|kept| - 1] == "" && text != ""
    ensures Interleaved(kept, romanized[|kept| - 1 := text]) == Interleaved(kept, romanized) + [text]
  {
    var n := |kept| - 1;
    assert romanized[n := text][..n] == romanized[..n];
  }

  /** Putting the transcriptions back in gives the original texts, up to the trimming of the transcriptions. */
  lemma {:induction false} InterleavingRestores(latin: Detector, lines: seq<Line>)
    ensures var (kept, romanized) := Parts(latin, lines); Interleaved(kept, romanized) == Texts(latin, lines)
    decreases |lines|
  {
    if lines != [] {
      var n := |lines| - 1;
      var (kept, romanized) := Parts(latin, lines[..n]);
      InterleavingRestores(latin, lines[..n]);
      TextsAppend(latin, lines);
      PartsGrow(latin, lines);
      if Absorbed(latin, lines, n) {
        InterleavedSet(kept, romanized, Trim(lines[n].text));
      } else {
        InterleavedAdd(kept, romanized, lines[n]);
      }
    }
  }
}
