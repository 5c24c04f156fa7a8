/** src/servicos_audio.py: `GeradorMIDI.gerar_e_salvar` over events written
    as tuples, the tag at index 0 and the beat at index 1. The values in a
    tuple are untyped, so they are modelled as `Value`s and passed on to the
    calls unchanged. Reading past the end of a tuple raises `IndexError`,
    which nothing catches, so the walk then fails; writing the file and the
    True/False outcome of that write are not modelled. */
module ServicosAudio {
  import opened Common
  import opened Events
  import MidiExport

  datatype Value = Text(s: string) | Int(i: int) | Real(r: real)

  /** An event as a tuple. */
  type Tuple = seq<Value>

  /** A `midiutil` call, with its positional arguments as given in the tuple. */
  datatype RawCall =
    | RawTempo(track: nat, time: Value, tempo: Value)
    | RawProgramChange(track: nat, channel: nat, time: Value, program: Value)
    | RawNote(track: nat, channel: nat, pitch: Value, time: Value, duration: Value, volume: Value)

  datatype WalkError = IndexError

  const TempoTag: Value := Text("tempo")
  const InstrumentTag: Value := Text("instrumento")
  const NoteTag: Value := Text("nota")
  const SpecificNoteTag: Value := Text("nota_instrumento_especifico")

  /** The number of entries the branch of a tuple's tag reads: two for any
      tuple, three for a tempo or instrument, five for a note, six for a
      specific note. */
  function Needed(ev: Tuple): (n: nat)
    ensures 2 <= n <= 6
  {
    if |ev| < 1 then 2
    else if ev[0] == TempoTag || ev[0] == InstrumentTag then 3
    else if ev[0] == NoteTag then 5
    else if ev[0] == SpecificNoteTag then 6
    else 2
  }

  /** The calls of one tuple given the two flags, or `IndexError` when the
      tuple is shorter than its branch reads. */
  function TupleImage(ev: Tuple, tempoSet: bool, instrumentSet: bool): (r: Result<seq<RawCall>, WalkError>)
    ensures r.Failure? <==> |ev| < Needed(ev)
    ensures r.Success? && |ev| >= 2 && !(ev[0] in {TempoTag, InstrumentTag, NoteTag, SpecificNoteTag}) ==> r.value == []
  {
    if |ev| < 2 then Failure(IndexError)
    else if ev[0] == TempoTag then
      if |ev| < 3 then Failure(IndexError)
      else
        var c := RawTempo(MidiExport.Track, ev[1], ev[2]);
        Success(if tempoSet then [c] else [c, c])
    else if ev[0] == InstrumentTag then
      if |ev| < 3 then Failure(IndexError)
      else
        var c := RawProgramChange(MidiExport.Track, MidiExport.Channel, ev[1], ev[2]);
        Success(if instrumentSet then [c] else [c, c])
    else if ev[0] == NoteTag then
      if |ev| < 5 then Failure(IndexError)
      else Success([RawNote(MidiExport.Track, MidiExport.Channel, ev[2], ev[1], ev[4], ev[3])])
    else if ev[0] == SpecificNoteTag then
      if |ev| < 6 then Failure(IndexError)
      else Success([RawNote(MidiExport.Track, MidiExport.Channel, ev[3], ev[1], ev[5], ev[4])])
    else Success([])
  }

  /** `cs` in front of the calls of a walk that succeeded; a failure stays. */
  function Prepend(cs: seq<RawCall>, r: Result<seq<RawCall>, WalkError>): Result<seq<RawCall>, WalkError> {
    if r.Failure? then r else Success(cs + r.value)
  }

  lemma PrependTwice(a: seq<RawCall>, b: seq<RawCall>, r: Result<seq<RawCall>, WalkError>)
    ensures Prepend(a, Prepend(b, r)) == Prepend(a + b, r)
    ensures Prepend([], r) == r
  {
    if r.Success? {
      assert (a + b) + r.value == a + (b + r.value);
      assert [] + r.value == r.value;
    }
  }

  /** The whole walk from the flags given. */
  function Walk(evs: seq<Tuple>, tempoSet: bool, instrumentSet: bool): Result<seq<RawCall>, WalkError>
    decreases |evs|
  {
    if evs == [] then Success([])
    else match TupleImage(evs[0], tempoSet, instrumentSet)
      case Failure(e) => Failure(e)
      case Success(cs) =>
        Prepend(cs, Walk(evs[1..], tempoSet || evs[0][0] == TempoTag, instrumentSet || evs[0][0] == InstrumentTag))
  }

  lemma WalkHead(evs: seq<Tuple>, tempoSet: bool, instrumentSet: bool)
    requires evs != [] && TupleImage(evs[0], tempoSet, instrumentSet).Success?
    ensures Walk(evs, tempoSet, instrumentSet) == Prepend(TupleImage(evs[0], tempoSet, instrumentSet).value,
      Walk(evs[1..], tempoSet || evs[0][0] == TempoTag, instrumentSet || evs[0][0] == InstrumentTag))
  {
  }

  /** One pass of the loop: the entries are read in the order the source
      reads them, and the first one missing stops the walk. */
  method WalkEvent(evento: Tuple, calls: seq<RawCall>, tempoInicialDefinido: bool, instrumentoInicialDefinido: bool)
    returns (r: Result<seq<RawCall>, WalkError>, tempoInicialDefinido': bool, instrumentoInicialDefinido': bool)
    ensures r == Prepend(calls, TupleImage(evento, tempoInicialDefinido, instrumentoInicialDefinido))
    ensures r.Success? ==> tempoInicialDefinido' == (tempoInicialDefinido || evento[0] == TempoTag)
    ensures r.Success? ==> instrumentoInicialDefinido' == (instrumentoInicialDefinido || evento[0] == InstrumentTag)
  {
    var track, channel := MidiExport.Track, MidiExport.Channel;
    tempoInicialDefinido', instrumentoInicialDefinido' := tempoInicialDefinido, instrumentoInicialDefinido;
    if |evento| < 2 {
      return Failure(IndexError), tempoInicialDefinido', instrumentoInicialDefinido';
    }
    var tipo := evento[0];
    var tempo := evento[1];
    var out := calls;
    assert calls + [] == calls;
    if tipo == TempoTag && !tempoInicialDefinido' {
      if |evento| < 3 {
        return Failure(IndexError), tempoInicialDefinido', instrumentoInicialDefinido';
      }
      out := out + [RawTempo(track, tempo, evento[2])];
      tempoInicialDefinido' := true;
    } else if tipo == InstrumentTag && !instrumentoInicialDefinido' {
      if |evento| < 3 {
        return Failure(IndexError), tempoInicialDefinido', instrumentoInicialDefinido';
      }
      out := out + [RawProgramChange(track, channel, tempo, evento[2])];
      instrumentoInicialDefinido' := true;
    } else if tipo == NoteTag {
      if |evento| < 5 {
        return Failure(IndexError), tempoInicialDefinido', instrumentoInicialDefinido';
      }
      var pitch, volume, duracao := evento[2], evento[3], evento[4];
      out := out + [RawNote(track, channel, pitch, tempo, duracao, volume)];
    } else if tipo == SpecificNoteTag {
      if |evento| < 6 {
        return Failure(IndexError), tempoInicialDefinido', instrumentoInicialDefinido';
      }
      var pitch, volume, duracao := evento[3], evento[4], evento[5];
      out := out + [RawNote(track, channel, pitch, tempo, duracao, volume)];
    }
    if tipo == TempoTag && tempoInicialDefinido' {
      if |evento| < 3 {
        return Failure(IndexError), tempoInicialDefinido', instrumentoInicialDefinido';
      }
      out := out + [RawTempo(track, tempo, evento[2])];
      assert !tempoInicialDefinido ==> out == calls + [RawTempo(track, tempo, evento[2]), RawTempo(track, tempo, evento[2])];
    }
    if tipo == InstrumentTag && instrumentoInicialDefinido' {
      if |evento| < 3 {
        return Failure(IndexError), tempoInicialDefinido', instrumentoInicialDefinido';
      }
      out := out + [RawProgramChange(track, channel, tempo, evento[2])];
      assert !instrumentoInicialDefinido ==>
        out == calls + [RawProgramChange(track, channel, tempo, evento[2]), RawProgramChange(track, channel, tempo, evento[2])];
    }
    r := Success(out);
  }

  /** `GeradorMIDI.gerar_e_salvar` in this file, without writing the file. */
  method GerarESalvar(eventos: seq<Tuple>) returns (r: Result<seq<RawCall>, WalkError>)
    ensures r == Walk(eventos, false, false)
  {
    var tempoInicialDefinido := false;
    var instrumentoInicialDefinido := false;
    var calls: seq<RawCall> := [];
    PrependTwice([], [], Walk(eventos, false, false));
    for i := 0 to |eventos|
      invariant Prepend(calls, Walk(eventos[i..], tempoInicialDefinido, instrumentoInicialDefinido))
        == Walk(eventos, false, false)
    {
      assert eventos[i..][0] == eventos[i] && eventos[i..][1..] == eventos[i + 1..];
      ghost var old_flags := (tempoInicialDefinido, instrumentoInicialDefinido);
      var step;
      step, tempoInicialDefinido, instrumentoInicialDefinido :=
        WalkEvent(eventos[i], calls, tempoInicialDefinido, instrumentoInicialDefinido);
      if step.Failure? {
        return step;
      }
      WalkHead(eventos[i..], old_flags.0, old_flags.1);
      PrependTwice(calls, TupleImage(eventos[i], old_flags.0, old_flags.1).value,
        Walk(eventos[i + 1..], tempoInicialDefinido, instrumentoInicialDefinido));
      calls := step.value;
    }
    assert eventos[|eventos|..] == [];
    assert calls + [] == calls;
    r := Success(calls);
  }

  // ---------------------------------------------------------------- lemmas

  /** The walk fails exactly when some tuple is shorter than its branch reads. */
  lemma {:induction false} WalkFailsIff(evs: seq<Tuple>, ts: bool, ins: bool)
    ensures Walk(evs, ts, ins).Failure? <==> exists k :: 0 <= k < |evs| && |evs[k]| < Needed(evs[k])
    decreases |evs|
  {
    if evs != [] {
      assert forall k :: 1 <= k < |evs| ==> evs[k] == evs[1..][k - 1];
      if TupleImage(evs[0], ts, ins).Success? {
        var ts', ins' := ts || evs[0][0] == TempoTag, ins || evs[0][0] == InstrumentTag;
        WalkFailsIff(evs[1..], ts', ins');
        if exists k :: 0 <= k < |evs| && |evs[k]| < Needed(evs[k]) {
          var k :| 0 <= k < |evs| && |evs[k]| < Needed(evs[k]);
          assert k > 0 && evs[1..][k - 1] == evs[k];
        }
        if exists k :: 0 <= k < |evs[1..]| && |evs[1..][k]| < Needed(evs[1..][k]) {
          var k :| 0 <= k < |evs[1..]| && |evs[1..][k]| < Needed(evs[1..][k]);
          assert evs[k + 1] == evs[1..][k];
        }
      }
    }
  }

  /** A well-formed tuple whose tag is none of the four adds no call and
      leaves both flags alone. */
  lemma UnknownTagSilent(ev: Tuple, rest: seq<Tuple>, ts: bool, ins: bool)
    requires |ev| >= 2 && ev[0] != TempoTag && ev[0] != InstrumentTag && ev[0] != NoteTag && ev[0] != SpecificNoteTag
    ensures Walk([ev] + rest, ts, ins) == Walk(rest, ts, ins)
  {
    assert ([ev] + rest)[0] == ev && ([ev] + rest)[1..] == rest;
    PrependTwice([], [], Walk(rest, ts, ins));
  }

  /** The tuple `servicos_audio` would be given for a typed event. The tag of
      a rest is not fixed by the source; any tag but the four is silent. */
  function Encode(e: MusicalEvent): (t: Tuple)
    ensures |t| >= Needed(t)
    ensures t[0] == TempoTag <==> e.Tempo?
    ensures t[0] == InstrumentTag <==> e.Instrument?
  {
    match e
    case Tempo(t, bpm) => [TempoTag, Int(t), Int(bpm)]
    case Instrument(t, id) => [InstrumentTag, Int(t), Int(id)]
    case Note(t, p, v, d) => [NoteTag, Int(t), Int(p), Int(v), Real(d)]
    case SpecificNote(t, id, p, v, d) => [SpecificNoteTag, Int(t), Int(id), Int(p), Int(v), Real(d)]
    case Rest(t, d) => [Text("pausa"), Int(t), Real(d)]
  }

  function EncodeAll(es: seq<MusicalEvent>): (r: seq<Tuple>)
    ensures |r| == |es| && forall k :: 0 <= k < |es| ==> r[k] == Encode(es[k])
  {
    seq(|es|, k requires 0 <= k < |es| => Encode(es[k]))
  }

  /** A typed call with its arguments as tuple values. */
  function Lift(c: MidiExport.Call): (r: RawCall)
    ensures r.track == c.track
  {
    match c
    case AddTempo(tr, t, bpm) => RawTempo(tr, Int(t), Int(bpm))
    case AddProgramChange(tr, ch, t, p) => RawProgramChange(tr, ch, Int(t), Int(p))
    case AddNote(tr, ch, p, t, d, v) => RawNote(tr, ch, Int(p), Int(t), Real(d), Int(v))
  }

  function LiftAll(cs: seq<MidiExport.Call>): (r: seq<RawCall>)
    ensures |r| == |cs| && forall k :: 0 <= k < |cs| ==> r[k] == Lift(cs[k])
  {
    seq(|cs|, k requires 0 <= k < |cs| => Lift(cs[k]))
  }

  lemma EncodedImage(e: MusicalEvent, ts: bool, ins: bool)
    ensures TupleImage(Encode(e), ts, ins) == Success(LiftAll(MidiExport.Image(e, ts, ins)))
  {
    var img := MidiExport.Image(e, ts, ins);
    var l := LiftAll(img);
    if |img| == 2 {
      assert l == [Lift(img[0]), Lift(img[1])];
    } else if |img| == 1 {
      assert l == [Lift(img[0])];
    } else {
      assert l == [];
    }
  }

  /** One well-formed tuple in front of a walk that succeeds. */
  lemma WalkCons(evs: seq<Tuple>, ts: bool, ins: bool, cs: seq<RawCall>, tail: seq<RawCall>)
    requires evs != [] && TupleImage(evs[0], ts, ins) == Success(cs)
    requires Walk(evs[1..], ts || evs[0][0] == TempoTag, ins || evs[0][0] == InstrumentTag) == Success(tail)
    ensures Walk(evs, ts, ins) == Success(cs + tail)
  {
    WalkHead(evs, ts, ins);
  }

  /** The tuple walk over encoded events issues the same calls, in the same
      order, as the typed walk of `MIDIExporter.save` and
      `GeradorMIDI.gerar_e_salvar` in src/audio.py, and never fails. */
  lemma {:induction false} EncodedWalk(es: seq<MusicalEvent>, ts: bool, ins: bool)
    ensures Walk(EncodeAll(es), ts, ins) == Success(LiftAll(MidiExport.Expected(es, ts, ins)))
    decreases |es|
  {
    if es != [] {
      var evs := EncodeAll(es);
      var img := MidiExport.Image(es[0], ts, ins);
      var rest := MidiExport.Expected(es[1..], ts || es[0].Tempo?, ins || es[0].Instrument?);
      MidiExport.ExpectedHead(es, ts, ins);
      assert evs[1..] == EncodeAll(es[1..]);
      EncodedImage(es[0], ts, ins);
      EncodedWalk(es[1..], ts || es[0].Tempo?, ins || es[0].Instrument?);
      WalkCons(evs, ts, ins, LiftAll(img), LiftAll(rest));
      assert LiftAll(img + rest) == LiftAll(img) + LiftAll(rest);
    } else {
      assert LiftAll([]) == [];
    }
  }
}
