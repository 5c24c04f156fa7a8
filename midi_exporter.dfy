/** src/infrastructure/midi_exporter.py: `MIDIExporter.save` walks the events
    once and issues `midiutil` calls on track 0, channel 0. The calls are
    modelled as values appended to a list; writing the file is not modelled.
    Two flags remember whether a tempo and an instrument have been seen, and
    because the "first" branch and the "later" branch are tested one after
    the other, the first tempo and the first instrument are each issued twice. */
module MidiExport {
  import opened Events

  /** One `midiutil.MIDIFile` call, with its keyword arguments as fields. */
  datatype Call =
    | AddTempo(track: nat, time: nat, tempo: int)
    | AddProgramChange(track: nat, channel: nat, time: nat, program: int)
    | AddNote(track: nat, channel: nat, pitch: int, time: nat, duration: real, volume: int)

  const Track: nat := 0
  const Channel: nat := 0

  /** The calls one event causes, given whether a tempo (`tempoSet`) and an
      instrument (`instrumentSet`) event came before it. */
  function Image(e: MusicalEvent, tempoSet: bool, instrumentSet: bool): (cs: seq<Call>)
    ensures e.Rest? <==> cs == []
    ensures |cs| <= 2
    ensures |cs| == 2 <==> (e.Tempo? && !tempoSet) || (e.Instrument? && !instrumentSet)
  {
    match e
    case Tempo(t, bpm) =>
      if tempoSet then [AddTempo(Track, t, bpm)] else [AddTempo(Track, t, bpm), AddTempo(Track, t, bpm)]
    case Instrument(t, id) =>
      var c := AddProgramChange(Track, Channel, t, id);
      if instrumentSet then [c] else [c, c]
    case Note(t, p, v, d) => [AddNote(Track, Channel, p, t, d, v)]
    case SpecificNote(t, _, p, v, d) => [AddNote(Track, Channel, p, t, d, v)]
    case Rest(_, _) => []
  }

  /** The calls of a walk over `es` that starts with the two flags given. */
  function Expected(es: seq<MusicalEvent>, tempoSet: bool, instrumentSet: bool): seq<Call>
    decreases |es|
  {
    if es == [] then []
    else
      Image(es[0], tempoSet, instrumentSet)
      + Expected(es[1..], tempoSet || es[0].Tempo?, instrumentSet || es[0].Instrument?)
  }

  lemma ExpectedHead(es: seq<MusicalEvent>, tempoSet: bool, instrumentSet: bool)
    requires es != []
    ensures Expected(es, tempoSet, instrumentSet) == Image(es[0], tempoSet, instrumentSet)
      + Expected(es[1..], tempoSet || es[0].Tempo?, instrumentSet || es[0].Instrument?)
  {
  }

  /** One pass of the loop of `MIDIExporter.save`: the "first" branches, the
      note branch, then the two "later" branches, each tested in turn. */
  method SaveEvent(evento: MusicalEvent, calls: seq<Call>, tempoInicialDefinido: bool, instrumentoInicialDefinido: bool)
    returns (calls': seq<Call>, tempoInicialDefinido': bool, instrumentoInicialDefinido': bool)
    ensures calls' == calls + Image(evento, tempoInicialDefinido, instrumentoInicialDefinido)
    ensures tempoInicialDefinido' == (tempoInicialDefinido || evento.Tempo?)
    ensures instrumentoInicialDefinido' == (instrumentoInicialDefinido || evento.Instrument?)
  {
    var track := Track;
    var channel := Channel;
    calls', tempoInicialDefinido', instrumentoInicialDefinido' := calls, tempoInicialDefinido, instrumentoInicialDefinido;
    if evento.Tempo? && !tempoInicialDefinido' {
      calls' := calls' + [AddTempo(track, evento.time, evento.bpm)];
      tempoInicialDefinido' := true;
    } else if evento.Instrument? && !instrumentoInicialDefinido' {
      calls' := calls' + [AddProgramChange(track, channel, evento.time, evento.instrumentId)];
      instrumentoInicialDefinido' := true;
    } else if evento.Note? || evento.SpecificNote? {
      calls' := calls' + [AddNote(track, channel, evento.pitch, evento.time, evento.duration, evento.volume)];
    }
    if evento.Tempo? && tempoInicialDefinido' {
      calls' := calls' + [AddTempo(track, evento.time, evento.bpm)];
    }
    if evento.Instrument? && instrumentoInicialDefinido' {
      calls' := calls' + [AddProgramChange(track, channel, evento.time, evento.instrumentId)];
    }
  }

  /** `MIDIExporter.save`, without opening and writing the file. */
  method Save(eventos: seq<MusicalEvent>) returns (calls: seq<Call>)
    ensures calls == Expected(eventos, false, false)
  {
    var tempoInicialDefinido := false;
    var instrumentoInicialDefinido := false;
    calls := [];
    for i := 0 to |eventos|
      invariant calls + Expected(eventos[i..], tempoInicialDefinido, instrumentoInicialDefinido)
        == Expected(eventos, false, false)
    {
      ExpectedHead(eventos[i..], tempoInicialDefinido, instrumentoInicialDefinido);
      assert eventos[i..][1..] == eventos[i + 1..];
      calls, tempoInicialDefinido, instrumentoInicialDefinido :=
        SaveEvent(eventos[i], calls, tempoInicialDefinido, instrumentoInicialDefinido);
    }
    assert eventos[|eventos|..] == [];
  }

  // ---------------------------------------------------------------- lemmas

  /** A walk over `a + b` is the walk over `a` followed by the walk over `b`
      with the flags `a` leaves behind. */
  lemma {:induction false} ExpectedAppend(a: seq<MusicalEvent>, b: seq<MusicalEvent>, ts: bool, ins: bool)
    ensures Expected(a + b, ts, ins) ==
      Expected(a, ts, ins) + Expected(b, ts || HasTempo(a), ins || HasInstrument(a))
    decreases |a|
  {
    if a != [] {
      assert (a + b)[0] == a[0] && (a + b)[1..] == a[1..] + b;
      HasHead(a);
      ExpectedAppend(a[1..], b, ts || a[0].Tempo?, ins || a[0].Instrument?);
    } else {
      assert a + b == b;
    }
  }

  predicate HasTempo(es: seq<MusicalEvent>) { exists k :: 0 <= k < |es| && es[k].Tempo? }
  predicate HasInstrument(es: seq<MusicalEvent>) { exists k :: 0 <= k < |es| && es[k].Instrument? }

  lemma HasHead(es: seq<MusicalEvent>)
    requires es != []
    ensures HasTempo(es) <==> es[0].Tempo? || HasTempo(es[1..])
    ensures HasInstrument(es) <==> es[0].Instrument? || HasInstrument(es[1..])
  {
    assert forall k :: 1 <= k < |es| ==> es[k] == es[1..][k - 1];
    if HasTempo(es[1..]) {
      var k :| 0 <= k < |es[1..]| && es[1..][k].Tempo?;
      assert es[k + 1].Tempo?;
    }
    if HasInstrument(es[1..]) {
      var k :| 0 <= k < |es[1..]| && es[1..][k].Instrument?;
      assert es[k + 1].Instrument?;
    }
  }

  /** Every call goes to track 0 and, where it has one, channel 0. */
  lemma {:induction false} ExpectedOnTrackZero(es: seq<MusicalEvent>, ts: bool, ins: bool)
    ensures forall k :: 0 <= k < |Expected(es, ts, ins)| ==> Expected(es, ts, ins)[k].track == 0
    ensures forall k :: 0 <= k < |Expected(es, ts, ins)| && !Expected(es, ts, ins)[k].AddTempo? ==>
      Expected(es, ts, ins)[k].channel == 0
    decreases |es|
  {
    if es != [] {
      ExpectedOnTrackZero(es[1..], ts || es[0].Tempo?, ins || es[0].Instrument?);
    }
  }

  /** The `addNote` calls of a list of calls, in order. */
  function NoteCalls(cs: seq<Call>): (r: seq<Call>)
    ensures forall k :: 0 <= k < |r| ==> r[k].AddNote?
    ensures |r| <= |cs|
  {
    if cs == [] then [] else (if cs[0].AddNote? then [cs[0]] else []) + NoteCalls(cs[1..])
  }

  lemma {:induction false} NoteCallsAppend(a: seq<Call>, b: seq<Call>)
    ensures NoteCalls(a + b) == NoteCalls(a) + NoteCalls(b)
    decreases |a|
  {
    if a != [] {
      assert (a + b)[0] == a[0] && (a + b)[1..] == a[1..] + b;
      NoteCallsAppend(a[1..], b);
    } else {
      assert a + b == b;
    }
  }

  /** The `addNote` call a note or specific note becomes: its own pitch, beat,
      duration and volume, and not the specific note's instrument. */
  function NoteCall(e: MusicalEvent): (c: Call)
    requires e.Note? || e.SpecificNote?
    ensures c.AddNote? && c.pitch == e.pitch && c.time == e.time && c.duration == e.duration && c.volume == e.volume
  {
    AddNote(Track, Channel, e.pitch, e.time, e.duration, e.volume)
  }

  /** The reference for the notes: one `addNote` per note and per specific
      note of `es`, in event order; other events contribute nothing. */
  function SoundCalls(es: seq<MusicalEvent>): (r: seq<Call>)
    ensures |r| <= |es|
  {
    if es == [] then []
    else (if es[0].Note? || es[0].SpecificNote? then [NoteCall(es[0])] else []) + SoundCalls(es[1..])
  }

  lemma ImageNoteCalls(e: MusicalEvent, ts: bool, ins: bool)
    ensures NoteCalls(Image(e, ts, ins)) == if e.Note? || e.SpecificNote? then [NoteCall(e)] else []
  {
    var img := Image(e, ts, ins);
    if img != [] {
      assert img[1..] == [] || img[1..][1..] == [];
    }
  }

  /** Whatever the flags, the `addNote` calls of a walk are exactly the
      reference ones: the tempo and instrument flags never touch notes. */
  lemma {:induction false} NotesInOrder(es: seq<MusicalEvent>, ts: bool, ins: bool)
    ensures NoteCalls(Expected(es, ts, ins)) == SoundCalls(es)
    decreases |es|
  {
    if es != [] {
      var img := Image(es[0], ts, ins);
      var rest := Expected(es[1..], ts || es[0].Tempo?, ins || es[0].Instrument?);
      ExpectedHead(es, ts, ins);
      NoteCallsAppend(img, rest);
      ImageNoteCalls(es[0], ts, ins);
      NotesInOrder(es[1..], ts || es[0].Tempo?, ins || es[0].Instrument?);
    }
  }

  /** The `addTempo` calls issued for `es`. */
  function TempoCalls(cs: seq<Call>): nat {
    if cs == [] then 0 else (if cs[0].AddTempo? then 1 else 0) + TempoCalls(cs[1..])
  }

  /** The `addProgramChange` calls issued for `es`. */
  function ProgramCalls(cs: seq<Call>): nat {
    if cs == [] then 0 else (if cs[0].AddProgramChange? then 1 else 0) + ProgramCalls(cs[1..])
  }

  function CountTempos(es: seq<MusicalEvent>): nat {
    if es == [] then 0 else (if es[0].Tempo? then 1 else 0) + CountTempos(es[1..])
  }

  function CountInstruments(es: seq<MusicalEvent>): nat {
    if es == [] then 0 else (if es[0].Instrument? then 1 else 0) + CountInstruments(es[1..])
  }

  lemma {:induction false} CallCountsAppend(a: seq<Call>, b: seq<Call>)
    ensures TempoCalls(a + b) == TempoCalls(a) + TempoCalls(b)
    ensures ProgramCalls(a + b) == ProgramCalls(a) + ProgramCalls(b)
    decreases |a|
  {
    if a != [] {
      assert (a + b)[0] == a[0] && (a + b)[1..] == a[1..] + b;
      CallCountsAppend(a[1..], b);
    } else {
      assert a + b == b;
    }
  }

  lemma {:induction false} CountsPositive(es: seq<MusicalEvent>)
    ensures CountTempos(es) > 0 <==> HasTempo(es)
    ensures CountInstruments(es) > 0 <==> HasInstrument(es)
    decreases |es|
  {
    if es != [] {
      CountsPositive(es[1..]);
      assert forall k :: 1 <= k < |es| ==> es[k] == es[1..][k - 1];
      if HasTempo(es[1..]) {
        var k :| 0 <= k < |es[1..]| && es[1..][k].Tempo?;
        assert es[k + 1].Tempo?;
      }
      if HasInstrument(es[1..]) {
        var k :| 0 <= k < |es[1..]| && es[1..][k].Instrument?;
        assert es[k + 1].Instrument?;
      }
    }
  }

  /** One `addTempo` per tempo event plus one more for the first, and one
      `addProgramChange` per instrument event plus one more for the first. */
  lemma {:induction false} CallCounts(es: seq<MusicalEvent>, ts: bool, ins: bool)
    ensures TempoCalls(Expected(es, ts, ins)) == CountTempos(es) + (if !ts && CountTempos(es) > 0 then 1 else 0)
    ensures ProgramCalls(Expected(es, ts, ins)) == CountInstruments(es) + (if !ins && CountInstruments(es) > 0 then 1 else 0)
    decreases |es|
  {
    if es != [] {
      var img := Image(es[0], ts, ins);
      CallCountsAppend(img, Expected(es[1..], ts || es[0].Tempo?, ins || es[0].Instrument?));
      CallCounts(es[1..], ts || es[0].Tempo?, ins || es[0].Instrument?);
      assert TempoCalls(img) == (if es[0].Tempo? then (if ts then 1 else 2) else 0) by {
        if img != [] { assert img[1..] == [] || (img[1..][1..] == [] && img[1..][0] == img[0]); }
      }
      assert ProgramCalls(img) == (if es[0].Instrument? then (if ins then 1 else 2) else 0) by {
        if img != [] { assert img[1..] == [] || (img[1..][1..] == [] && img[1..][0] == img[0]); }
      }
    }
  }

  /** With both flags set, every event's calls are its plain image: one call
      per tempo, instrument, note and specific note, none per rest. */
  lemma {:induction false} SteadyWalk(es: seq<MusicalEvent>)
    ensures |Expected(es, true, true)| == |es| - CountRests(es)
    ensures forall k :: 0 <= k < |es| ==> |Image(es[k], true, true)| == (if es[k].Rest? then 0 else 1)
    decreases |es|
  {
    if es != [] {
      SteadyWalk(es[1..]);
    }
  }

  function CountRests(es: seq<MusicalEvent>): nat {
    if es == [] then 0 else (if es[0].Rest? then 1 else 0) + CountRests(es[1..])
  }

  /** The first tempo event, at position `k`, is issued as two identical
      `addTempo` calls, right after the calls of the events before it. */
  lemma FirstTempoTwice(es: seq<MusicalEvent>, k: nat)
    requires k < |es| && es[k].Tempo? && !HasTempo(es[..k])
    ensures var before := Expected(es[..k], false, false);
      var c := AddTempo(Track, es[k].time, es[k].bpm);
      before + [c, c] <= Expected(es, false, false)
  {
    assert es == es[..k] + ([es[k]] + es[k + 1..]);
    ExpectedAppend(es[..k], [es[k]] + es[k + 1..], false, false);
  }

  /** The first instrument event, at position `k`, is issued as two identical
      `addProgramChange` calls, right after the calls of the events before it. */
  lemma FirstInstrumentTwice(es: seq<MusicalEvent>, k: nat)
    requires k < |es| && es[k].Instrument? && !HasInstrument(es[..k])
    ensures var before := Expected(es[..k], false, false);
      var c := AddProgramChange(Track, Channel, es[k].time, es[k].instrumentId);
      before + [c, c] <= Expected(es, false, false)
  {
    assert es == es[..k] + ([es[k]] + es[k + 1..]);
    ExpectedAppend(es[..k], [es[k]] + es[k + 1..], false, false);
  }

  /** A later tempo or instrument event, after one of its kind at `j < k`,
      is issued once. */
  lemma LaterOnce(es: seq<MusicalEvent>, j: nat, k: nat)
    requires j < k < |es|
    requires (es[j].Tempo? && es[k].Tempo?) || (es[j].Instrument? && es[k].Instrument?)
    ensures Expected(es[..k], false, false) + Image(es[k], true, true) <= Expected(es, false, false)
    ensures |Image(es[k], true, true)| == 1
  {
    assert es == es[..k] + ([es[k]] + es[k + 1..]);
    ExpectedAppend(es[..k], [es[k]] + es[k + 1..], false, false);
    assert es[..k][j] == es[j];
  }
}
