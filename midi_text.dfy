/** Step 4 of `MIDIImporter.load` and `_format_duration`
    (src/infrastructure/midi_importer.py): the processed notes become text
    tokens — `R` rests, `I` instrument and `V` volume changes, octave moves
    `>`, `<` and `O`, and note names with a length and dots — joined by spaces.
    Beats are exact rationals here. */
module MidiText {
  import opened Common
  import opened Config
  import opened MidiNotes

  // ------------------------------------------------------------ durations

  /** The note lengths tried, whole note first. */
  const Lengths: seq<nat> := [1, 2, 4, 8, 16, 32, 64]

  /** Candidate `c` is length `Lengths[c / 3]` with `c % 3` dots; the loops try
      them in that order. */
  const CandidateCount: nat := 21

  /** Four beats divided by each length. */
  const BaseBeats: seq<real> := [4.0, 2.0, 1.0, 0.5, 0.25, 0.125, 0.0625]

  lemma BaseBeatsOfLengths(li: nat)
    requires li < |Lengths|
    ensures 4.0 / (Lengths[li] as real) == BaseBeats[li]
  {
  }

  /** The beats of every candidate, in the order the loops try them: each
      dot adds half of what the previous one added, so one dot is 3/2 of the
      length and two are 7/4; the next length is half as long. */
  function CandidateBeats(c: nat): real
    requires c < CandidateCount
    decreases c
  {
    if c == 0 then 4.0
    else if c == 1 then 6.0
    else if c == 2 then 7.0
    else CandidateBeats(c - 3) / 2.0
  }

  function Abs(x: real): real { if x < 0.0 then -x else x }

  function Error(c: nat, beats: real): real
    requires c < CandidateCount
  {
    Abs(CandidateBeats(c) - beats)
  }

  /** `'.' * dots`. */
  function Dots(d: nat): (s: string)
    ensures |s| == d
  {
    seq(d, _ => '.')
  }

  /** The f-string of `_format_duration`: name, length, dots. */
  function Spelled(name: string, length: nat, dots: nat): string {
    name + DecimalString(length) + Dots(dots)
  }

  function CandidateString(name: string, c: nat): string
    requires c < CandidateCount
  {
    Spelled(name, Lengths[c / 3], c % 3)
  }

  /** Candidate `b` is the first of least error among the first `n`: what
      the running minimum of `_format_duration` holds after `n` candidates. */
  predicate BestSoFar(b: nat, n: nat, beats: real)
    requires n <= CandidateCount
  {
    && b < n
    && (forall c :: 0 <= c < n ==> Error(b, beats) <= Error(c, beats))
    && forall c :: 0 <= c < b ==> Error(c, beats) > Error(b, beats)
  }

  /** One more candidate for the running minimum: it replaces the best so far
      exactly when there is none yet or it is strictly nearer. */
  lemma BestStep(c: nat, beats: real, haveMin: bool, bestC: nat, minError: real, error: real)
    requires c < CandidateCount
    requires haveMin <==> c > 0
    requires haveMin ==> BestSoFar(bestC, c, beats) && minError == Error(bestC, beats)
    requires error == Error(c, beats)
    ensures BestSoFar(if !haveMin || error < minError then c else bestC, c + 1, beats)
  {
  }

  /** Some candidate is the first of least error among the first `n`. */
  lemma {:induction false} BestSoFarExists(n: nat, beats: real)
    requires 1 <= n <= CandidateCount
    ensures exists b :: BestSoFar(b, n, beats)
  {
    if n == 1 {
      assert BestSoFar(0, 1, beats);
    } else {
      BestSoFarExists(n - 1, beats);
      var b :| BestSoFar(b, n - 1, beats);
      BestStep(n - 1, beats, true, b, Error(b, beats), Error(n - 1, beats));
    }
  }

  /** A hundredth of a beat: shorter durations are not written. */
  const MinBeats: real := 1.0 / 100.0

  /** Candidate `c` is the nearest of all to `beats`, and no earlier one is
      as near. */
  predicate Nearest(c: nat, beats: real) {
    BestSoFar(c, CandidateCount, beats)
  }

  /** Some candidate is the first nearest. */
  lemma NearestExists(beats: real)
    ensures exists c :: Nearest(c, beats)
  {
    BestSoFarExists(CandidateCount, beats);
    var b :| BestSoFar(b, CandidateCount, beats);
    assert Nearest(b, beats);
  }

  /** There is only one first nearest candidate. */
  lemma NearestUnique(c: nat, c': nat, beats: real)
    requires Nearest(c, beats) && Nearest(c', beats)
    ensures c == c'
  {
    assert Error(c, beats) <= Error(c', beats) && Error(c', beats) <= Error(c, beats);
  }

  /** What `_format_duration` writes: nothing for a hundredth of a beat or
      less, else the name with the length and dots of the first nearest
      candidate. */
  ghost function FormatDurationSpec(name: string, beats: real): string {
    if beats <= MinBeats then ""
    else
      NearestExists(beats);
      var c :| Nearest(c, beats);
      CandidateString(name, c)
  }

  /** The spec names the one first nearest candidate. */
  lemma FormatDurationIsNearest(name: string, beats: real, c: nat)
    requires beats > MinBeats && Nearest(c, beats)
    ensures FormatDurationSpec(name, beats) == CandidateString(name, c)
  {
    NearestExists(beats);
    forall c' | Nearest(c', beats) ensures c' == c {
      NearestUnique(c', c, beats);
    }
  }

  /** A duration is written as nothing exactly when it is a hundredth of a
      beat or less; otherwise it is the name followed by a length. */
  lemma FormatDurationEmpty(name: string, beats: real)
    ensures FormatDurationSpec(name, beats) == "" <==> beats <= MinBeats
    ensures beats > MinBeats ==> name <= FormatDurationSpec(name, beats)
  {
    if beats > MinBeats {
      NearestExists(beats);
      var c: nat :| Nearest(c, beats);
      FormatDurationIsNearest(name, beats, c);
      assert |DecimalString(Lengths[c / 3])| >= 1;
      assert CandidateString(name, c) == name + DecimalString(Lengths[c / 3]) + Dots(c % 3);
    }
  }

  /** The innermost loop of `_format_duration`: `dots` times, add the adder
      and halve it. */
  method DottedBeats(baseDur: real, dots: nat) returns (dur: real)
    requires dots < 3
    ensures dots == 0 ==> dur == baseDur
    ensures dots == 1 ==> dur == baseDur * 1.5
    ensures dots == 2 ==> dur == baseDur * 1.75
  {
    dur := baseDur;
    var adder := baseDur * 0.5;
    for k := 0 to dots
      invariant k == 0 ==> dur == baseDur && adder == baseDur * 0.5
      invariant k == 1 ==> dur == baseDur * 1.5 && adder == baseDur * 0.25
      invariant k == 2 ==> dur == baseDur * 1.75 && adder == baseDur * 0.125
    {
      dur := dur + adder;
      adder := adder * 0.5;
    }
  }

  /** Candidate `3 * li + dots` lasts length `li` with `dots` dots. */
  lemma {:induction false} CandidateBeatsAt(li: nat, dots: nat)
    requires li < |Lengths| && dots < 3
    ensures dots == 0 ==> CandidateBeats(3 * li + dots) == BaseBeats[li]
    ensures dots == 1 ==> CandidateBeats(3 * li + dots) == BaseBeats[li] * 1.5
    ensures dots == 2 ==> CandidateBeats(3 * li + dots) == BaseBeats[li] * 1.75
    decreases li
  {
    if li > 0 {
      CandidateBeatsAt(li - 1, dots);
      assert 3 * (li - 1) + dots == 3 * li + dots - 3;
    }
  }

  /** What the two inner loops reach for length `li` and `dots` dots is
      candidate `3 * li + dots`. */
  lemma DurationIsCandidate(li: nat, dots: nat, baseDur: real, dur: real, beats: real)
    requires li < |Lengths| && dots < 3
    requires baseDur == 4.0 / (Lengths[li] as real)
    requires dots == 0 ==> dur == baseDur
    requires dots == 1 ==> dur == baseDur * 1.5
    requires dots == 2 ==> dur == baseDur * 1.75
    ensures dur == CandidateBeats(3 * li + dots)
    ensures Abs(dur - beats) == Error(3 * li + dots, beats)
  {
    BaseBeatsOfLengths(li);
    CandidateBeatsAt(li, dots);
  }

  /** Candidate `3 * li + dots` is written with length `li` and `dots` dots. */
  lemma CandidateStringAt(name: string, li: nat, dots: nat)
    requires li < |Lengths| && dots < 3
    ensures CandidateString(name, 3 * li + dots) == Spelled(name, Lengths[li], dots)
  {
    var c := 3 * li + dots;
    assert c / 3 == li && c % 3 == dots;
  }

  /** Offering the duration the inner loops reach for length `li` and
      `dots` dots to the running minimum keeps it the first nearest so far. */
  lemma Offer(name: string, beats: real, li: nat, dots: nat, baseDur: real, dur: real,
              have: bool, bestC: nat, minError: real)
    requires li < |Lengths| && dots < 3
    requires baseDur == 4.0 / (Lengths[li] as real)
    requires dots == 0 ==> dur == baseDur
    requires dots == 1 ==> dur == baseDur * 1.5
    requires dots == 2 ==> dur == baseDur * 1.75
    requires have <==> 3 * li + dots > 0
    requires have ==> BestSoFar(bestC, 3 * li + dots, beats) && minError == Error(bestC, beats)
    ensures var c := 3 * li + dots;
      if !have || Abs(dur - beats) < minError then
        && BestSoFar(c, c + 1, beats)
        && Spelled(name, Lengths[li], dots) == CandidateString(name, c)
        && Abs(dur - beats) == Error(c, beats)
      else BestSoFar(bestC, c + 1, beats)
  {
    var c := 3 * li + dots;
    DurationIsCandidate(li, dots, baseDur, dur, beats);
    CandidateStringAt(name, li, dots);
    BestStep(c, beats, have, bestC, minError, Abs(dur - beats));
  }

  /** The body of the dots loop of `_format_duration`: the duration reached
      replaces the best so far when there is none yet (`min_error = inf`) or
      it is strictly nearer. */
  method OfferDuration(name: string, beats: real, li: nat, dots: nat, baseDur: real, dur: real,
                       best: string, minError: real, have: bool, ghost bestC: nat)
    returns (best': string, minError': real, ghost bestC': nat)
    requires li < |Lengths| && dots < 3
    requires baseDur == 4.0 / (Lengths[li] as real)
    requires dots == 0 ==> dur == baseDur
    requires dots == 1 ==> dur == baseDur * 1.5
    requires dots == 2 ==> dur == baseDur * 1.75
    requires have <==> 3 * li + dots > 0
    requires have ==> BestSoFar(bestC, 3 * li + dots, beats) && best == CandidateString(name, bestC) && minError == Error(bestC, beats)
    ensures BestSoFar(bestC', 3 * li + dots + 1, beats)
    ensures best' == CandidateString(name, bestC') && minError' == Error(bestC', beats)
  {
    Offer(name, beats, li, dots, baseDur, dur, have, bestC, minError);
    best', minError', bestC' := best, minError, bestC;
    var error := Abs(dur - beats);
    if !have || error < minError {
      minError' := error;
      best' := Spelled(name, Lengths[li], dots);
      bestC' := 3 * li + dots;
    }
  }

  /** The body of the length loop of `_format_duration`: the three dot
      counts of length `li`. */
  method TryLength(name: string, beats: real, li: nat, best: string, minError: real, haveMin: bool, ghost bestC: nat)
    returns (best': string, minError': real, ghost bestC': nat)
    requires li < |Lengths|
    requires haveMin <==> li > 0
    requires haveMin ==> BestSoFar(bestC, 3 * li, beats) && best == CandidateString(name, bestC) && minError == Error(bestC, beats)
    ensures BestSoFar(bestC', 3 * li + 3, beats)
    ensures best' == CandidateString(name, bestC') && minError' == Error(bestC', beats)
  {
    best', minError', bestC' := best, minError, bestC;
    var have := haveMin;
    var length := Lengths[li];
    var baseDur := 4.0 / (length as real);
    for dots := 0 to 3
      invariant have <==> 3 * li + dots > 0
      invariant have ==> BestSoFar(bestC', 3 * li + dots, beats)
      invariant have ==> best' == CandidateString(name, bestC') && minError' == Error(bestC', beats)
    {
      var dur := DottedBeats(baseDur, dots);
      best', minError', bestC' := OfferDuration(name, beats, li, dots, baseDur, dur, best', minError', have, bestC');
      have := true;
    }
  }

  /** `_format_duration`. */
  method FormatDuration(name: string, beats: real) returns (s: string)
    ensures s == FormatDurationSpec(name, beats)
  {
    if beats <= MinBeats {
      return "";
    }
    var best := "";
    var minError := 0.0;
    ghost var bestC: nat := 0;
    for li := 0 to |Lengths|
      invariant li > 0 ==> BestSoFar(bestC, 3 * li, beats)
      invariant li > 0 ==> best == CandidateString(name, bestC) && minError == Error(bestC, beats)
    {
      best, minError, bestC := TryLength(name, beats, li, best, minError, li > 0, bestC);
      assert 3 * li + 3 == 3 * (li + 1);
    }
    FormatDurationIsNearest(name, beats, bestC);
    s := best;
  }

  // ------------------------------------------------------------ note names

  /** `base_pitch_map`: the pitch classes of the table letters other than `H`. */
  const BasePitchMap: map<int, string> := map[0 := "C", 2 := "D", 4 := "E", 5 := "F", 7 := "G", 9 := "A", 11 := "B"]

  /** `base_pitch_map` is the table inverted without `H`. */
  lemma BasePitchMapOfTable()
    ensures forall k :: 0 <= k < 7 ==>
      NoteBase[NoteLetters[k]] % 12 in BasePitchMap && BasePitchMap[NoteBase[NoteLetters[k]] % 12] == [NoteLetters[k]]
    ensures NoteLetters[7] == 'H'
    ensures forall p :: p in BasePitchMap ==>
      |BasePitchMap[p]| == 1 && BasePitchMap[p][0] in NoteBase && BasePitchMap[p][0] != 'H'
      && NoteBase[BasePitchMap[p][0]] % 12 == p
  {
  }

  /** The name of a pitch: its natural, or the natural below with `#`. */
  function NoteName(pitch: Byte7): string {
    var pc := pitch % 12;
    if pc in BasePitchMap then BasePitchMap[pc]
    else
      var prev := (pc - 1) % 12;
      if prev in BasePitchMap then BasePitchMap[prev] + "#" else "C"
  }

  /** Every pitch class is a natural or one above a natural, so the `C`
      fallback is never taken; B flat is written `A#`. */
  lemma NoteNameFacts(pitch: Byte7)
    ensures var pc := pitch % 12;
      pc in BasePitchMap || (pc - 1) % 12 in BasePitchMap
    ensures NoteName(pitch) ==
      ["C", "C#", "D", "D#", "E", "F", "F#", "G", "G#", "A", "A#", "B"][pitch % 12]
  {
  }

  // ------------------------------------------------------------ rendering

  datatype LoadError = ZeroDivision

  /** The loop variables of step 4: tick, octave, volume and instrument. */
  datatype Cursor = Cursor(ticks: int, octave: int, volume: int, instrument: int)

  /** Before the first note: tick 0, octave 5, and no volume or instrument yet. */
  const RenderStart: Cursor := Cursor(0, 5, -1, -1)

  datatype RenderStep = RenderStep(parts: seq<string>, cursor: Cursor)

  /** A rest token for a positive gap, unless its duration writes as nothing. */
  ghost function RestParts(gap: int, tpb: nat): seq<string>
    requires tpb > 0
  {
    if gap > 0 then
      var r := FormatDurationSpec("R", gap as real / tpb as real);
      if r != "" then [r] else []
    else []
  }

  function OctaveParts(target: int, current: int): seq<string>
    requires target >= 0
  {
    if target == current then []
    else if target - current == 1 then [">"]
    else if target - current == -1 then ["<"]
    else ["O" + DecimalString(target)]
  }

  function InstrumentParts(n: NoteEvent, c: Cursor): seq<string> {
    if n.instrument != c.instrument then ["I" + DecimalString(n.instrument)] else []
  }

  function VolumeParts(n: NoteEvent, c: Cursor): seq<string> {
    if n.velocity != c.volume then ["V" + DecimalString(n.velocity)] else []
  }

  ghost function NoteString(n: NoteEvent, tpb: nat): string
    requires tpb > 0
  {
    FormatDurationSpec(NoteName(n.pitch), n.durationTicks as real / tpb as real)
  }

  /** The tokens of one note: rest, instrument, volume, octave, name; the
      cursor moves to the end of the note. */
  ghost function RenderNote(n: NoteEvent, c: Cursor, tpb: nat): (s: RenderStep)
    requires tpb > 0
    ensures s.cursor == Cursor(n.startTicks + n.durationTicks, n.pitch / 12, n.velocity, n.instrument)
  {
    RenderStep(
      RestParts(n.startTicks - c.ticks, tpb) + InstrumentParts(n, c) + VolumeParts(n, c)
        + OctaveParts(n.pitch / 12, c.octave) + [NoteString(n, tpb)],
      Cursor(n.startTicks + n.durationTicks, n.pitch / 12, n.velocity, n.instrument))
  }

  ghost function RenderFrom(notes: seq<NoteEvent>, c: Cursor, tpb: nat): seq<string>
    requires tpb > 0 || notes == []
    decreases |notes|
  {
    if notes == [] then []
    else var s := RenderNote(notes[0], c, tpb); s.parts + RenderFrom(notes[1..], s.cursor, tpb)
  }

  /** One note at the head of the rest. */
  lemma RenderFromHead(notes: seq<NoteEvent>, c: Cursor, tpb: nat)
    requires tpb > 0 && notes != []
    ensures RenderFrom(notes, c, tpb) ==
      RenderNote(notes[0], c, tpb).parts + RenderFrom(notes[1..], RenderNote(notes[0], c, tpb).cursor, tpb)
  {
  }

  /** The rest before a note, if any. */
  method RestTokens(gapTicks: int, tpb: nat) returns (parts: seq<string>)
    requires tpb > 0
    ensures parts == RestParts(gapTicks, tpb)
  {
    parts := [];
    if gapTicks > 0 {
      var gapBeats := gapTicks as real / tpb as real;
      var restStr := FormatDuration("R", gapBeats);
      if restStr != "" {
        parts := [restStr];
      }
    }
  }

  /** The octave move to a note, if any. */
  method OctaveTokens(targetOctave: int, currentOctave: int) returns (parts: seq<string>)
    requires targetOctave >= 0
    ensures parts == OctaveParts(targetOctave, currentOctave)
  {
    parts := [];
    if targetOctave != currentOctave {
      var diff := targetOctave - currentOctave;
      if diff == 1 {
        parts := [">"];
      } else if diff == -1 {
        parts := ["<"];
      } else {
        parts := ["O" + DecimalString(targetOctave)];
      }
    }
  }

  /** The body of the output loop of step 4, for one note: the tokens it
      appends and the loop variables after it. */
  method RenderNoteParts(note: NoteEvent, cur: Cursor, tpb: nat) returns (parts: seq<string>, cur': Cursor)
    requires tpb > 0
    ensures parts == RenderNote(note, cur, tpb).parts
    ensures cur' == RenderNote(note, cur, tpb).cursor
  {
    var currentTicks, currentOctave, currentVol, currentInst := cur.ticks, cur.octave, cur.volume, cur.instrument;
    parts := RestTokens(note.startTicks - currentTicks, tpb);
    currentTicks := note.startTicks;
    if note.instrument != currentInst {
      parts := parts + ["I" + DecimalString(note.instrument)];
      currentInst := note.instrument;
    }
    if note.velocity != currentVol {
      parts := parts + ["V" + DecimalString(note.velocity)];
      currentVol := note.velocity;
    }
    var targetOctave := note.pitch / 12;
    var move := OctaveTokens(targetOctave, currentOctave);
    parts := parts + move;
    currentOctave := targetOctave;
    var noteChar := NoteName(note.pitch);
    var beats := note.durationTicks as real / tpb as real;
    var noteStr := FormatDuration(noteChar, beats);
    parts := parts + [noteStr];
    currentTicks := currentTicks + note.durationTicks;
    cur' := Cursor(currentTicks, currentOctave, currentVol, currentInst);
  }

  /** The output loop of step 4. Every note divides by `ticks_per_beat`, so
      a zero there raises at the first note. */
  method Render(notes: seq<NoteEvent>, tpb: nat) returns (r: Result<seq<string>, LoadError>)
    ensures tpb == 0 && notes != [] ==> r == Failure(ZeroDivision)
    ensures !(tpb == 0 && notes != []) ==> r == Success(RenderFrom(notes, RenderStart, tpb))
  {
    if tpb == 0 && notes != [] {
      return Failure(ZeroDivision);
    }
    var cur := RenderStart;
    var outputParts: seq<string> := [];
    assert notes[0..] == notes;
    for i := 0 to |notes|
      invariant outputParts + RenderFrom(notes[i..], cur, tpb) == RenderFrom(notes, RenderStart, tpb)
    {
      RenderFromHead(notes[i..], cur, tpb);
      assert notes[i..][1..] == notes[i + 1..];
      var parts;
      parts, cur := RenderNoteParts(notes[i], cur, tpb);
      outputParts := outputParts + parts;
    }
    assert notes[|notes|..] == [];
    assert outputParts == RenderFrom(notes, RenderStart, tpb);
    r := Success(outputParts);
  }

  /** The first note is always announced with its instrument and volume,
      after the rest from tick 0 if it starts later: no program or velocity
      equals the starting -1. */
  lemma FirstNoteAnnounced(notes: seq<NoteEvent>, tpb: nat)
    requires tpb > 0 && notes != []
    ensures RestParts(notes[0].startTicks, tpb)
      + ["I" + DecimalString(notes[0].instrument), "V" + DecimalString(notes[0].velocity)]
      <= RenderFrom(notes, RenderStart, tpb)
  {
    RenderFromHead(notes, RenderStart, tpb);
    var n := notes[0];
    var step := RenderNote(n, RenderStart, tpb);
    assert step.parts == RestParts(n.startTicks, tpb) + ["I" + DecimalString(n.instrument)]
      + ["V" + DecimalString(n.velocity)] + OctaveParts(n.pitch / 12, 5) + [NoteString(n, tpb)];
  }

  /** `' '.join`. */
  function Join(parts: seq<string>): string
    decreases |parts|
  {
    if parts == [] then "" else if |parts| == 1 then parts[0] else parts[0] + " " + Join(parts[1..])
  }

  // ------------------------------------------------------------ load

  /** Steps 1 to 3: read, sort, drop chords, cut overlaps. */
  function Processed(file: MidiFile): seq<NoteEvent> {
    Truncated(KeepFirsts(SortNotes(ReadAll(file.tracks)), -1))
  }

  ghost function LoadSpec(file: MidiFile): Result<string, LoadError> {
    var notes := Processed(file);
    if file.ticksPerBeat == 0 && notes != [] then Failure(ZeroDivision)
    else Success(Join(RenderFrom(notes, RenderStart, file.ticksPerBeat)))
  }

  /** `MIDIImporter.load` after `mido` has read the file. */
  method Load(file: MidiFile) returns (r: Result<string, LoadError>)
    ensures r == LoadSpec(file)
  {
    var raw := ReadNotes(file);
    var sorted := SortNotes(raw);
    var processed := HandlePolyphony(sorted);
    var parts := Render(processed, file.ticksPerBeat);
    match parts
    case Failure(e) => r := Failure(e);
    case Success(ps) => r := Success(Join(ps));
  }

  /** Sorting keeps the notes read, so the same notes are members. */
  lemma SortedMembers(raw: seq<NoteEvent>)
    ensures SortedByKey(SortNotes(raw))
    ensures forall x :: x in SortNotes(raw) <==> x in raw
  {
    SortFacts(raw);
    forall x ensures x in SortNotes(raw) <==> x in raw {
      assert x in SortNotes(raw) <==> x in multiset(SortNotes(raw));
    }
  }

  /** The notes kept after dropping chords: read notes, in strictly
      increasing order of start. */
  lemma KeptFacts(file: MidiFile)
    ensures var raw := ReadAll(file.tracks); var u := KeepFirsts(SortNotes(raw), -1);
      && StrictlyIncreasing(u)
      && forall k :: 0 <= k < |u| ==> u[k] in raw && u[k].durationTicks > 0
  {
    var raw := ReadAll(file.tracks);
    var u := KeepFirsts(SortNotes(raw), -1);
    SortedMembers(raw);
    ReadAllFacts(file.tracks);
    KeepFirstsIncreasing(SortNotes(raw), -1);
    forall k | 0 <= k < |u| ensures u[k] in raw && u[k].durationTicks > 0 {
      assert u[k] in raw;
      var j :| 0 <= j < |raw| && raw[j] == u[k];
      assert ReadNote(raw[j]);
    }
  }

  /** The line the importer builds is monophonic: starts strictly increase,
      every note lasts a positive time and ends by the next start, and each
      note is one read from the file, cut short at most. */
  lemma ProcessedMonophonic(file: MidiFile)
    ensures var p, raw := Processed(file), ReadAll(file.tracks);
      && StrictlyIncreasing(p)
      && (forall k :: 0 <= k < |p| - 1 ==> p[k].startTicks + p[k].durationTicks <= p[k + 1].startTicks)
      && forall k :: 0 <= k < |p| ==>
           exists x :: x in raw && p[k] == x.(durationTicks := p[k].durationTicks) && 0 < p[k].durationTicks <= x.durationTicks
  {
    var raw := ReadAll(file.tracks);
    var u := KeepFirsts(SortNotes(raw), -1);
    var p := Truncated(u);
    KeptFacts(file);
    TruncatedFacts(u);
    assert StrictlyIncreasing(p) by {
      forall j, k | 0 <= j < k < |p| ensures p[j].startTicks < p[k].startTicks {
        assert u[j].startTicks < u[k].startTicks;
      }
    }
    forall k | 0 <= k < |p|
      ensures exists x :: x in raw && p[k] == x.(durationTicks := p[k].durationTicks) && 0 < p[k].durationTicks <= x.durationTicks
    {
      assert u[k] in raw;
    }
  }

  /** Of the notes struck together the highest is kept, and every start in
      the file is the start of a note of the line. */
  lemma ProcessedHighest(file: MidiFile)
    ensures var p, raw := Processed(file), ReadAll(file.tracks);
      && (forall k, x :: 0 <= k < |p| && x in raw && x.startTicks == p[k].startTicks ==> x.pitch <= p[k].pitch)
      && forall x :: x in raw ==> exists k :: 0 <= k < |p| && p[k].startTicks == x.startTicks
  {
    var raw := ReadAll(file.tracks);
    var sorted := SortNotes(raw);
    var u := KeepFirsts(sorted, -1);
    var p := Truncated(u);
    SortedMembers(raw);
    KeptFacts(file);
    TruncatedFacts(u);
    forall k, x | 0 <= k < |p| && x in raw && x.startTicks == p[k].startTicks
      ensures x.pitch <= p[k].pitch
    {
      assert p[k].startTicks == u[k].startTicks && p[k].pitch == u[k].pitch;
      KeepFirstsHighest(sorted, -1, k, x);
    }
    forall x | x in raw
      ensures exists k :: 0 <= k < |p| && p[k].startTicks == x.startTicks
    {
      KeepFirstsCovers(sorted, -1, x);
      var k :| 0 <= k < |u| && u[k].startTicks == x.startTicks;
      assert p[k].startTicks == u[k].startTicks;
    }
  }
}
