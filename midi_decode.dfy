/** A reader for the text `MIDIImporter.load` writes, used as the independent
    partner of the renderer: splitting the text on single spaces and replaying
    the `I`, `V`, `>`, `<`, `O` and note tokens from the importer's starting
    values gives back the instrument, velocity and pitch of every note whose
    duration writes as something, in order. Rests and note lengths are
    skipped; the renderer's correctness on those is the quantiser's contract. */
module MidiDecode {
  import opened Common
  import opened MidiNotes
  import opened MidiText

  /** What a listener of the text keeps track of. */
  datatype Listener = Listener(octave: int, volume: int, instrument: int)

  /** A note as heard: program, velocity and MIDI pitch. */
  datatype Heard = Heard(instrument: int, velocity: int, pitch: int)

  /** The pitch class of a natural note letter. */
  const LetterClass: map<char, int> := map['C' := 0, 'D' := 2, 'E' := 4, 'F' := 5, 'G' := 7, 'A' := 9, 'B' := 11]

  /** The pitch class a note token names: its letter, raised by a `#`. */
  function TokenClass(tok: string): int
    requires tok != []
  {
    (if tok[0] in LetterClass then LetterClass[tok[0]] else 0) + (if |tok| > 1 && tok[1] == '#' then 1 else 0)
  }

  /** The effect of one token on the listener, and the note it sounds, if any. */
  function Hear(tok: string, l: Listener): (Listener, seq<Heard>) {
    if tok == "" || tok[0] == 'R' then (l, [])
    else if tok == ">" then (l.(octave := l.octave + 1), [])
    else if tok == "<" then (l.(octave := l.octave - 1), [])
    else if tok[0] == 'O' then (l.(octave := ParseDecimal(tok[1..])), [])
    else if tok[0] == 'I' then (l.(instrument := ParseDecimal(tok[1..])), [])
    else if tok[0] == 'V' then (l.(volume := ParseDecimal(tok[1..])), [])
    else (l, [Heard(l.instrument, l.volume, l.octave * 12 + TokenClass(tok))])
  }

  function HearAll(toks: seq<string>, l: Listener): (Listener, seq<Heard>)
    decreases |toks|
  {
    if toks == [] then (l, [])
    else
      var first := Hear(toks[0], l);
      var rest := HearAll(toks[1..], first.0);
      (rest.0, first.1 + rest.1)
  }

  /** `str.split(' ')`: the pieces between single spaces, empty ones included. */
  function Split(s: string): (r: seq<string>)
    ensures |r| >= 1
    decreases |s|
  {
    if s == [] then [""]
    else if s[0] == ' ' then [""] + Split(s[1..])
    else var r := Split(s[1..]); [[s[0]] + r[0]] + r[1..]
  }

  /** Reading the importer's text back, from the importer's starting values. */
  function Decode(text: string): seq<Heard> {
    HearAll(Split(text), ListenerOf(RenderStart)).1
  }

  function ListenerOf(c: Cursor): Listener {
    Listener(c.octave, c.volume, c.instrument)
  }

  /** What a listener should hear of `notes`: every note whose duration
      writes as something, with its program, velocity and pitch. */
  ghost function Audible(notes: seq<NoteEvent>, tpb: nat): seq<Heard>
    requires tpb > 0 || notes == []
    decreases |notes|
  {
    if notes == [] then []
    else
      (if NoteString(notes[0], tpb) != "" then [Heard(notes[0].instrument, notes[0].velocity, notes[0].pitch)] else [])
      + Audible(notes[1..], tpb)
  }

  predicate NoSpace(s: string) {
    forall k :: 0 <= k < |s| ==> s[k] != ' '
  }

  /** A list of tokens none of which holds a space. */
  predicate Words(parts: seq<string>) {
    forall k :: 0 <= k < |parts| ==> NoSpace(parts[k])
  }

  lemma WordsAppend(a: seq<string>, b: seq<string>)
    requires Words(a) && Words(b)
    ensures Words(a + b)
  {
  }

  // ------------------------------------------------------------ splitting

  lemma {:induction false} SplitWord(a: string)
    requires NoSpace(a)
    ensures Split(a) == [a]
    decreases |a|
  {
    if a != [] {
      SplitWord(a[1..]);
      assert [a[0]] + a[1..] == a;
    }
  }

  lemma {:induction false} SplitSpace(a: string, b: string)
    requires NoSpace(a)
    ensures Split(a + " " + b) == [a] + Split(b)
    decreases |a|
  {
    if a == [] {
      assert a + " " + b == [' '] + b;
      assert ([' '] + b)[1..] == b;
    } else {
      assert (a + " " + b)[0] == a[0] && (a + " " + b)[1..] == a[1..] + " " + b;
      SplitSpace(a[1..], b);
      assert [a[0]] + a[1..] == a;
    }
  }

  /** Splitting a space-joined list of words without spaces gives the words
      back, empty words included. */
  lemma {:induction false} SplitJoin(parts: seq<string>)
    requires parts != []
    requires Words(parts)
    ensures Split(Join(parts)) == parts
    decreases |parts|
  {
    if |parts| == 1 {
      SplitWord(parts[0]);
    } else {
      SplitSpace(parts[0], Join(parts[1..]));
      SplitJoin(parts[1..]);
    }
  }

  // ------------------------------------------------------------ listening

  lemma {:induction false} HearAllAppend(a: seq<string>, b: seq<string>, l: Listener)
    ensures HearAll(a + b, l) == (HearAll(b, HearAll(a, l).0).0, HearAll(a, l).1 + HearAll(b, HearAll(a, l).0).1)
    decreases |a|
  {
    if a == [] {
      assert a + b == b;
      assert [] + HearAll(b, l).1 == HearAll(b, l).1;
    } else {
      var first := Hear(a[0], l);
      assert (a + b)[0] == a[0] && (a + b)[1..] == a[1..] + b;
      HearAllAppend(a[1..], b, first.0);
      var mid := HearAll(a[1..], first.0);
      var last := HearAll(b, mid.0);
      assert first.1 + (mid.1 + last.1) == (first.1 + mid.1) + last.1;
    }
  }

  lemma HearOne(tok: string, l: Listener)
    ensures HearAll([tok], l) == Hear(tok, l)
  {
    assert [tok][1..] == [];
    assert Hear(tok, l).1 + [] == Hear(tok, l).1;
  }

  /** A number token sets its register to the number written. */
  lemma HearNumber(letter: char, n: nat, l: Listener)
    requires letter in "OIV"
    ensures var tok := [letter] + DecimalString(n);
      Hear(tok, l) == (if letter == 'O' then l.(octave := n) else if letter == 'I' then l.(instrument := n) else l.(volume := n), [])
  {
    var tok := [letter] + DecimalString(n);
    assert tok[1..] == DecimalString(n);
    ParseDecimalString(n);
    assert tok != ">" && tok != "<" by {
      assert |tok| >= 2;
    }
  }

  /** A written duration: the name, then a digit, and no space or `#` after the name. */
  lemma DurationShape(name: string, beats: real)
    requires beats > MinBeats
    ensures var s := FormatDurationSpec(name, beats);
      && |s| > |name| && s[..|name|] == name && IsDigit(s[|name|])
      && forall k :: |name| <= k < |s| ==> s[k] != ' ' && s[k] != '#'
  {
    NearestExists(beats);
    var c: nat :| Nearest(c, beats);
    FormatDurationIsNearest(name, beats, c);
    var len, dots := Lengths[c / 3], c % 3;
    var dec := DecimalString(len);
    DecimalStringDigits(len);
    var s := name + dec + Dots(dots);
    assert FormatDurationSpec(name, beats) == s;
    assert s[..|name|] == name;
    forall k | |name| <= k < |s| ensures s[k] != ' ' && s[k] != '#' {
      if k < |name| + |dec| {
        assert s[k] == dec[k - |name|];
      } else {
        assert s[k] == Dots(dots)[k - |name| - |dec|];
      }
    }
    assert s[|name|] == dec[0];
  }

  lemma RestHeardAsNothing(gap: int, tpb: nat, l: Listener)
    requires tpb > 0
    ensures HearAll(RestParts(gap, tpb), l) == (l, [])
    ensures Words(RestParts(gap, tpb))
  {
    var rs := RestParts(gap, tpb);
    if rs != [] {
      var beats := gap as real / tpb as real;
      FormatDurationEmpty("R", beats);
      DurationShape("R", beats);
      var r := FormatDurationSpec("R", beats);
      assert rs == [r];
      assert r[0] == 'R';
      HearOne(r, l);
    }
  }

  lemma InstrumentHeard(n: NoteEvent, c: Cursor)
    ensures HearAll(InstrumentParts(n, c), ListenerOf(c)) == (ListenerOf(c).(instrument := n.instrument), [])
    ensures Words(InstrumentParts(n, c))
  {
    if n.instrument != c.instrument {
      HearOne("I" + DecimalString(n.instrument), ListenerOf(c));
      HearNumber('I', n.instrument, ListenerOf(c));
      DecimalStringDigits(n.instrument);
      assert forall k :: 1 <= k < |"I" + DecimalString(n.instrument)| ==>
        ("I" + DecimalString(n.instrument))[k] == DecimalString(n.instrument)[k - 1];
    }
  }

  lemma VolumeHeard(n: NoteEvent, c: Cursor, l: Listener)
    requires l.volume == c.volume
    ensures HearAll(VolumeParts(n, c), l) == (l.(volume := n.velocity), [])
    ensures Words(VolumeParts(n, c))
  {
    if n.velocity != c.volume {
      HearOne("V" + DecimalString(n.velocity), l);
      HearNumber('V', n.velocity, l);
      DecimalStringDigits(n.velocity);
      assert forall k :: 1 <= k < |"V" + DecimalString(n.velocity)| ==>
        ("V" + DecimalString(n.velocity))[k] == DecimalString(n.velocity)[k - 1];
    }
  }

  lemma OctaveHeard(target: int, l: Listener)
    requires target >= 0
    ensures HearAll(OctaveParts(target, l.octave), l) == (l.(octave := target), [])
    ensures Words(OctaveParts(target, l.octave))
  {
    var ps := OctaveParts(target, l.octave);
    if ps != [] {
      HearOne(ps[0], l);
      if target - l.octave != 1 && target - l.octave != -1 {
        HearNumber('O', target, l);
        DecimalStringDigits(target);
        assert forall k :: 1 <= k < |"O" + DecimalString(target)| ==>
          ("O" + DecimalString(target))[k] == DecimalString(target)[k - 1];
      }
    }
  }

  /** The pitch class a note name spells is the pitch's own. */
  lemma NameClass(pitch: Byte7)
    ensures NoteName(pitch) != [] && TokenClass(NoteName(pitch)) == pitch % 12
    ensures NoteName(pitch)[0] in LetterClass
    ensures |NoteName(pitch)| <= 2 && (|NoteName(pitch)| == 2 ==> NoteName(pitch)[1] == '#')
  {
    NoteNameFacts(pitch);
  }

  /** The note token at the right octave, volume and instrument is heard
      as the note, unless it writes as nothing. */
  lemma NoteHeard(n: NoteEvent, tpb: nat, l: Listener)
    requires tpb > 0 && l.octave == n.pitch / 12
    ensures HearAll([NoteString(n, tpb)], l) ==
      (l, if NoteString(n, tpb) != "" then [Heard(l.instrument, l.volume, n.pitch)] else [])
    ensures NoSpace(NoteString(n, tpb))
  {
    var name := NoteName(n.pitch);
    var beats := n.durationTicks as real / tpb as real;
    var s := NoteString(n, tpb);
    HearOne(s, l);
    FormatDurationEmpty(name, beats);
    if s != "" {
      NameClass(n.pitch);
      DurationShape(name, beats);
      assert s[0] == name[0];
      assert |name| == 2 ==> s[1] == '#';
      assert |name| == 1 ==> s[1] != '#';
      assert TokenClass(s) == TokenClass(name);
      assert s != ">" && s != "<";
      assert forall k :: 0 <= k < |name| ==> s[k] == name[k];
    }
  }

  /** Tokens that sound nothing, then tokens that sound `h`. */
  lemma HearThen(a: seq<string>, b: seq<string>, l: Listener, l': Listener, l'': Listener, h: seq<Heard>)
    requires HearAll(a, l) == (l', []) && HearAll(b, l') == (l'', h)
    ensures HearAll(a + b, l) == (l'', h)
  {
    HearAllAppend(a, b, l);
    assert [] + h == h;
  }

  /** One note's tokens move the listener to the renderer's next cursor and
      sound exactly that note, if its duration writes as something. */
  lemma NoteTokensHeard(n: NoteEvent, c: Cursor, tpb: nat)
    requires tpb > 0
    ensures var step := RenderNote(n, c, tpb);
      HearAll(step.parts, ListenerOf(c)) == (ListenerOf(step.cursor),
        if NoteString(n, tpb) != "" then [Heard(n.instrument, n.velocity, n.pitch)] else [])
  {
    var l0 := ListenerOf(c);
    var rs, ins, vs := RestParts(n.startTicks - c.ticks, tpb), InstrumentParts(n, c), VolumeParts(n, c);
    var l1 := l0.(instrument := n.instrument);
    var l2 := l1.(volume := n.velocity);
    var os := OctaveParts(n.pitch / 12, c.octave);
    var l3 := l2.(octave := n.pitch / 12);
    var ns := [NoteString(n, tpb)];
    var h := if NoteString(n, tpb) != "" then [Heard(n.instrument, n.velocity, n.pitch)] else [];
    RestHeardAsNothing(n.startTicks - c.ticks, tpb, l0);
    InstrumentHeard(n, c);
    VolumeHeard(n, c, l1);
    OctaveHeard(n.pitch / 12, l2);
    NoteHeard(n, tpb, l3);
    HearThen(rs, ins, l0, l0, l1, []);
    HearThen(rs + ins, vs, l0, l1, l2, []);
    HearThen(rs + ins + vs, os, l0, l2, l3, []);
    HearThen(rs + ins + vs + os, ns, l0, l3, l3, h);
    assert RenderNote(n, c, tpb).parts == rs + ins + vs + os + ns;
  }

  /** No token of a note holds a space. */
  lemma NoteTokensNoSpace(n: NoteEvent, c: Cursor, tpb: nat)
    requires tpb > 0
    ensures Words(RenderNote(n, c, tpb).parts)
  {
    var l0 := ListenerOf(c);
    var l2 := l0.(instrument := n.instrument, volume := n.velocity);
    RestHeardAsNothing(n.startTicks - c.ticks, tpb, l0);
    InstrumentHeard(n, c);
    VolumeHeard(n, c, l0.(instrument := n.instrument));
    OctaveHeard(n.pitch / 12, l2);
    NoteHeard(n, tpb, l2.(octave := n.pitch / 12));
    var rs, ins, vs := RestParts(n.startTicks - c.ticks, tpb), InstrumentParts(n, c), VolumeParts(n, c);
    var os, ns := OctaveParts(n.pitch / 12, c.octave), [NoteString(n, tpb)];
    WordsAppend(rs, ins);
    WordsAppend(rs + ins, vs);
    WordsAppend(rs + ins + vs, os);
    WordsAppend(rs + ins + vs + os, ns);
    assert RenderNote(n, c, tpb).parts == rs + ins + vs + os + ns;
  }

  /** Listening to everything the renderer writes for `notes` hears exactly
      the audible notes, in order. */
  lemma {:induction false} RenderHeard(notes: seq<NoteEvent>, c: Cursor, tpb: nat)
    requires tpb > 0 || notes == []
    ensures HearAll(RenderFrom(notes, c, tpb), ListenerOf(c)).1 == Audible(notes, tpb)
    ensures Words(RenderFrom(notes, c, tpb))
    decreases |notes|
  {
    if notes != [] {
      var step := RenderNote(notes[0], c, tpb);
      RenderFromHead(notes, c, tpb);
      NoteTokensHeard(notes[0], c, tpb);
      NoteTokensNoSpace(notes[0], c, tpb);
      RenderHeard(notes[1..], step.cursor, tpb);
      HearAllAppend(step.parts, RenderFrom(notes[1..], step.cursor, tpb), ListenerOf(c));
    }
  }

  /** The round trip of the importer: reading back the text `load` returns
      hears every note of the monophonic line whose duration writes as
      something, with its program, velocity and pitch, in order. */
  lemma LoadHeard(file: MidiFile)
    requires LoadSpec(file).Success?
    ensures Decode(LoadSpec(file).value) == Audible(Processed(file), file.ticksPerBeat)
  {
    var notes, tpb := Processed(file), file.ticksPerBeat;
    var parts := RenderFrom(notes, RenderStart, tpb);
    RenderHeard(notes, RenderStart, tpb);
    if parts == [] {
      assert Join(parts) == "";
      assert Split("") == [""];
      HearOne("", ListenerOf(RenderStart));
    } else {
      SplitJoin(parts);
    }
  }
}
