/** src/processador.py: `MapeadorRegras`, the older twin of `TextParser`. Its
    handlers update a caller-supplied `EstadoMusical` in place, and the text
    walk starts by resetting that state for playback. Every method is proved
    to do what the matching function of `Dispatch` says; the last-note slot
    is an `int` here, so it always holds a value and no read of it fails. */
module Processador {
  import opened Common
  import opened Events
  import opened Dispatch
  import opened Modelo

  /** The fields of an `EstadoMusical` that the handlers read and write. */
  function EstadoOf(e: EstadoMusical): (m: State)
    reads e
    ensures m.octave == e.oitava && m.volume == e.volume && m.bpm == e.bpm && m.instrument == e.instrumentoId
    ensures m.last == Some(e.ultimaNotaMidi) && m.cursor == e.tempoEvento
  {
    State(e.oitava, e.volume, e.bpm, e.instrumentoId, Some(e.ultimaNotaMidi), e.tempoEvento)
  }

  /** The state `_inicializar_eventos` leaves behind: the marker and beat 0. */
  function PlaybackStart(m: State): (r: State)
    ensures r.last == Some(Cleared) && r.cursor == 0
    ensures r.octave == m.octave && r.volume == m.volume && r.bpm == m.bpm && r.instrument == m.instrument
  {
    m.(last := Some(Cleared), cursor := 0)
  }

  /** `_tratar_bpm_mais`. */
  method TreatBpmPlusOn(e: EstadoMusical, eventos: seq<MusicalEvent>) returns (eventos': seq<MusicalEvent>)
    modifies e
    ensures EstadoOf(e) == TreatBpmPlus(old(EstadoOf(e))).state
    ensures eventos' == eventos + TreatBpmPlus(old(EstadoOf(e))).out
  {
    e.bpm := e.bpm + 80;
    eventos' := eventos + [Tempo(e.tempoEvento, e.bpm)];
  }

  /** `_tratar_pausa`. */
  method TreatRestOn(e: EstadoMusical, eventos: seq<MusicalEvent>) returns (eventos': seq<MusicalEvent>)
    modifies e
    ensures EstadoOf(e) == TreatRest(old(EstadoOf(e))).state
    ensures eventos' == eventos + TreatRest(old(EstadoOf(e))).out
  {
    eventos' := eventos + [Rest(e.tempoEvento, 1.0)];
    e.ultimaNotaMidi := Cleared;
  }

  /** `_tratar_nota`. */
  method TreatNoteOn(c: char, e: EstadoMusical, eventos: seq<MusicalEvent>) returns (eventos': seq<MusicalEvent>)
    modifies e
    ensures EstadoOf(e) == TreatNote(old(EstadoOf(e)), c).state
    ensures eventos' == eventos + TreatNote(old(EstadoOf(e)), c).out
  {
    var notaMidi := GetNotaMidi(c, e.oitava);
    if 0 <= notaMidi <= Config.MaxMidiValue {
      eventos' := eventos + [Note(e.tempoEvento, notaMidi, e.volume, 1.0)];
      e.ultimaNotaMidi := notaMidi;
    } else {
      eventos' := TreatRestOn(e, eventos);
    }
  }

  /** `_tratar_volume`. */
  method TreatVolumeOn(e: EstadoMusical)
    modifies e
    ensures EstadoOf(e) == TreatVolume(old(EstadoOf(e))).state
  {
    e.volume := if e.volume * 2 < Config.MaxMidiValue then e.volume * 2 else Config.MaxMidiValue;
    e.ultimaNotaMidi := Cleared;
  }

  /** `_tratar_oitava`. */
  method TreatOctaveOn(c: char, e: EstadoMusical)
    modifies e
    ensures EstadoOf(e) == TreatOctave(old(EstadoOf(e)), c).state
  {
    if c == '+' {
      e.oitava := if e.oitava + 1 < 10 then e.oitava + 1 else 10;
    } else {
      e.oitava := if e.oitava - 1 > 1 then e.oitava - 1 else 1;
    }
    e.ultimaNotaMidi := Cleared;
  }

  /** `_tratar_vogal`: the slot always holds a value, so the vowel never fails. */
  method TreatVowelOn(e: EstadoMusical, eventos: seq<MusicalEvent>) returns (eventos': seq<MusicalEvent>)
    modifies e
    ensures TreatVowel(old(EstadoOf(e))).Success?
    ensures EstadoOf(e) == TreatVowel(old(EstadoOf(e))).value.state
    ensures eventos' == eventos + TreatVowel(old(EstadoOf(e))).value.out
  {
    if e.ultimaNotaMidi != Cleared {
      eventos' := eventos + [Note(e.tempoEvento, e.ultimaNotaMidi, e.volume, 1.0)];
    } else {
      var notaTelefone := GetNotaMidi('c', 5);
      eventos' := eventos + [SpecificNote(e.tempoEvento, Config.TelephoneProgram, notaTelefone, 100, 1.0)];
      e.ultimaNotaMidi := Cleared;
    }
  }

  /** `_tratar_troca_instrumento`. */
  method TreatInstrumentChangeOn(e: EstadoMusical, eventos: seq<MusicalEvent>) returns (eventos': seq<MusicalEvent>)
    modifies e
    ensures EstadoOf(e) == TreatInstrumentChange(old(EstadoOf(e))).state
    ensures eventos' == eventos + TreatInstrumentChange(old(EstadoOf(e))).out
  {
    e.instrumentoId := NextInstrument(e.instrumentoId);
    eventos' := eventos + [Instrument(e.tempoEvento, e.instrumentoId)];
    e.ultimaNotaMidi := Cleared;
  }

  /** `_processar_caractere`, with `pick` the letter `random.choice` would draw. */
  method ProcessCharOn(c: char, e: EstadoMusical, eventos: seq<MusicalEvent>, pick: NoteLetter)
    returns (eventos': seq<MusicalEvent>)
    modifies e
    ensures ProcessChar(old(EstadoOf(e)), c, pick).Success?
    ensures EstadoOf(e) == ProcessChar(old(EstadoOf(e)), c, pick).value.state
    ensures eventos' == eventos + ProcessChar(old(EstadoOf(e)), c, pick).value.out
  {
    var lc := Lower(c);
    if lc in "abcdefgh" {
      eventos' := TreatNoteOn(c, e, eventos);
    } else if c == ' ' {
      TreatVolumeOn(e);
      eventos' := eventos;
    } else if c == '+' || c == '-' {
      TreatOctaveOn(c, e);
      eventos' := eventos;
    } else if lc in "oiu" {
      eventos' := TreatVowelOn(e, eventos);
    } else if c == '?' {
      eventos' := TreatNoteOn(pick, e, eventos);
    } else if c == '\n' {
      eventos' := TreatInstrumentChangeOn(e, eventos);
    } else if c == ';' {
      eventos' := TreatRestOn(e, eventos);
    } else {
      eventos' := eventos;
    }
  }

  /** `_inicializar_eventos`: resets the state for playback, then the tempo
      and the instrument at beat 0. */
  method InitEventsOn(e: EstadoMusical) returns (eventos: seq<MusicalEvent>)
    modifies e
    ensures e.Snapshot() == Reset(old(e.Snapshot()))
    ensures EstadoOf(e) == PlaybackStart(old(EstadoOf(e)))
    ensures eventos == Preamble(EstadoOf(e))
  {
    e.RedefinirParaPlayback();
    eventos := [Tempo(e.tempoEvento, e.bpm), Instrument(e.tempoEvento, e.instrumentoId)];
  }

  /** A character of the walk other than `BPM+`: its handler, then one beat. */
  method SingleOn(c: char, ghost rest: seq<Token>, e: EstadoMusical, eventos: seq<MusicalEvent>, dice: Dice)
    returns (eventos': seq<MusicalEvent>)
    modifies e
    ensures Run(rest, EstadoOf(e), eventos', dice) == Run([Single(c)] + rest, old(EstadoOf(e)), eventos, dice)
  {
    ghost var m := EstadoOf(e);
    RunSingleHead(c, rest, m, eventos, dice);
    ghost var t := ProcessChar(m, c, dice(m.cursor));
    eventos' := ProcessCharOn(c, e, eventos, dice(e.tempoEvento));
    e.tempoEvento := e.tempoEvento + 1;
    assert EstadoOf(e) == t.value.state.(cursor := m.cursor + 1);
  }

  /** `MapeadorRegras.processar_texto`: the events of `Interpret` from the
      reset state, which never fails; the caller's state ends as the final
      state of that run. */
  method ProcessarTexto(texto: string, estado: EstadoMusical, dice: Dice) returns (eventos: seq<MusicalEvent>)
    modifies estado
    ensures Interpret(texto, PlaybackStart(old(EstadoOf(estado))), dice).Success?
    ensures eventos == Interpret(texto, PlaybackStart(old(EstadoOf(estado))), dice).value.out
    ensures EstadoOf(estado) == Interpret(texto, PlaybackStart(old(EstadoOf(estado))), dice).value.state
  {
    ghost var start := PlaybackStart(EstadoOf(estado));
    eventos := InitEventsOn(estado);
    ghost var goal := Interpret(texto, start, dice);
    assert texto[0..] == texto;
    var i := 0;
    while i < |texto|
      invariant 0 <= i <= |texto|
      invariant Run(Tokenize(texto[i..]), EstadoOf(estado), eventos, dice) == goal
      decreases |texto| - i
    {
      ghost var m := EstadoOf(estado);
      TokenizeAt(texto, i);
      if i + 3 < |texto| && Upper(texto[i]) == 'B' && Upper(texto[i + 1]) == 'P'
         && Upper(texto[i + 2]) == 'M' && Upper(texto[i + 3]) == '+' {
        assert StartsWithBpmPlus(texto[i..]);
        RunHead(BpmPlus, Tokenize(texto[i + 4..]), m, eventos, dice);
        eventos := TreatBpmPlusOn(estado, eventos);
        assert Run(Tokenize(texto[i + 4..]), EstadoOf(estado), eventos, dice) == goal;
        i := i + 4;
        continue;
      }
      eventos := SingleOn(texto[i], Tokenize(texto[i + 1..]), estado, eventos, dice);
      i := i + 1;
    }
    assert texto[i..] == [];
    RunNeverFails(Tokenize(texto), start, Preamble(start), dice);
  }
}
