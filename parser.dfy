/** src/domain/parser.py: `TextParser`, which walks the text with an index and
    updates a `ParsingContext` in place while appending to an event list.

    `TextParser` keeps no state of its own, so its methods are the methods of
    this module; each handler changes the context it is given and returns the
    event list with its appended events. Every method is proved to do what
    the matching function of `Dispatch` says. */
module Parser {
  import opened Common
  import opened Events
  import opened Models
  import opened Dispatch

  /** The fields of a context that the handlers read and write. */
  function StateOf(ctx: ParsingContext): (m: State)
    reads ctx
    ensures m.octave == ctx.octave && m.volume == ctx.volume && m.bpm == ctx.bpm
    ensures m.instrument == ctx.instrumentId && m.last == ctx.lastNoteMidi && m.cursor == ctx.tempoEvento
  {
    State(ctx.octave, ctx.volume, ctx.bpm, ctx.instrumentId, ctx.lastNoteMidi, ctx.tempoEvento)
  }

  /** `_tratar_bpm_mais`. */
  method TreatBpmPlusIn(ctx: ParsingContext, eventos: seq<MusicalEvent>) returns (eventos': seq<MusicalEvent>)
    modifies ctx
    ensures StateOf(ctx) == TreatBpmPlus(old(StateOf(ctx))).state
    ensures eventos' == eventos + TreatBpmPlus(old(StateOf(ctx))).out
    ensures ctx.defaultLength == old(ctx.defaultLength)
  {
    ctx.bpm := ctx.bpm + 80;
    eventos' := eventos + [Tempo(ctx.tempoEvento, ctx.bpm)];
  }

  /** `_tratar_pausa`. */
  method TreatRestIn(ctx: ParsingContext, eventos: seq<MusicalEvent>) returns (eventos': seq<MusicalEvent>)
    modifies ctx
    ensures StateOf(ctx) == TreatRest(old(StateOf(ctx))).state
    ensures eventos' == eventos + TreatRest(old(StateOf(ctx))).out
    ensures ctx.defaultLength == old(ctx.defaultLength)
  {
    eventos' := eventos + [Rest(ctx.tempoEvento, 1.0)];
    ctx.lastNoteMidi := Some(Cleared);
  }

  /** `_tratar_nota`. */
  method TreatNoteIn(c: char, ctx: ParsingContext, eventos: seq<MusicalEvent>) returns (eventos': seq<MusicalEvent>)
    modifies ctx
    ensures StateOf(ctx) == TreatNote(old(StateOf(ctx)), c).state
    ensures eventos' == eventos + TreatNote(old(StateOf(ctx)), c).out
    ensures ctx.defaultLength == old(ctx.defaultLength)
  {
    var notaMidi := GetNotaMidi(c, ctx.octave);
    if 0 <= notaMidi <= Config.MaxMidiValue {
      eventos' := eventos + [Note(ctx.tempoEvento, notaMidi, ctx.volume, 1.0)];
      ctx.lastNoteMidi := Some(notaMidi);
    } else {
      eventos' := TreatRestIn(ctx, eventos);
    }
  }

  /** `_tratar_volume`. */
  method TreatVolumeIn(ctx: ParsingContext)
    modifies ctx
    ensures StateOf(ctx) == TreatVolume(old(StateOf(ctx))).state
    ensures ctx.defaultLength == old(ctx.defaultLength)
  {
    ctx.volume := if ctx.volume * 2 < Config.MaxMidiValue then ctx.volume * 2 else Config.MaxMidiValue;
    ctx.lastNoteMidi := Some(Cleared);
  }

  /** `_tratar_oitava`. */
  method TreatOctaveIn(c: char, ctx: ParsingContext)
    modifies ctx
    ensures StateOf(ctx) == TreatOctave(old(StateOf(ctx)), c).state
    ensures ctx.defaultLength == old(ctx.defaultLength)
  {
    if c == '+' {
      ctx.octave := if ctx.octave + 1 < 10 then ctx.octave + 1 else 10;
    } else {
      ctx.octave := if ctx.octave - 1 > 1 then ctx.octave - 1 else 1;
    }
    ctx.lastNoteMidi := Some(Cleared);
  }

  /** `_tratar_vogal`; reading the attribute before any handler assigned it
      is the `AttributeError` the method raises, and changes nothing. */
  method TreatVowelIn(ctx: ParsingContext, eventos: seq<MusicalEvent>) returns (r: Result<seq<MusicalEvent>, ParseError>)
    modifies ctx
    ensures var t := TreatVowel(old(StateOf(ctx)));
      && r.Success? == t.Success?
      && (t.Success? ==> StateOf(ctx) == t.value.state && r.value == eventos + t.value.out)
      && (t.Failure? ==> StateOf(ctx) == old(StateOf(ctx)) && r.error == t.error)
    ensures ctx.defaultLength == old(ctx.defaultLength)
  {
    if ctx.lastNoteMidi.None? {
      return Failure(LastNoteUnset);
    }
    if ctx.lastNoteMidi.value != Cleared {
      r := Success(eventos + [Note(ctx.tempoEvento, ctx.lastNoteMidi.value, ctx.volume, 1.0)]);
    } else {
      var notaTelefone := GetNotaMidi('c', 5);
      r := Success(eventos + [SpecificNote(ctx.tempoEvento, Config.TelephoneProgram, notaTelefone, 100, 1.0)]);
      ctx.lastNoteMidi := Some(Cleared);
    }
  }

  /** `_tratar_troca_instrumento`. */
  method TreatInstrumentChangeIn(ctx: ParsingContext, eventos: seq<MusicalEvent>) returns (eventos': seq<MusicalEvent>)
    modifies ctx
    ensures StateOf(ctx) == TreatInstrumentChange(old(StateOf(ctx))).state
    ensures eventos' == eventos + TreatInstrumentChange(old(StateOf(ctx))).out
    ensures ctx.defaultLength == old(ctx.defaultLength)
  {
    ctx.instrumentId := NextInstrument(ctx.instrumentId);
    eventos' := eventos + [Instrument(ctx.tempoEvento, ctx.instrumentId)];
    ctx.lastNoteMidi := Some(Cleared);
  }

  /** `_processar_caractere`, with `pick` the letter `random.choice` would draw. */
  method ProcessCharIn(c: char, ctx: ParsingContext, eventos: seq<MusicalEvent>, pick: NoteLetter)
    returns (r: Result<seq<MusicalEvent>, ParseError>)
    modifies ctx
    ensures var t := ProcessChar(old(StateOf(ctx)), c, pick);
      && r.Success? == t.Success?
      && (t.Success? ==> StateOf(ctx) == t.value.state && r.value == eventos + t.value.out)
      && (t.Failure? ==> StateOf(ctx) == old(StateOf(ctx)) && r.error == t.error)
    ensures ctx.defaultLength == old(ctx.defaultLength)
  {
    var lc := Lower(c);
    if lc in "abcdefgh" {
      var e := TreatNoteIn(c, ctx, eventos);
      r := Success(e);
    } else if c == ' ' {
      TreatVolumeIn(ctx);
      r := Success(eventos);
    } else if c == '+' || c == '-' {
      TreatOctaveIn(c, ctx);
      r := Success(eventos);
    } else if lc in "oiu" {
      r := TreatVowelIn(ctx, eventos);
    } else if c == '?' {
      var e := TreatNoteIn(pick, ctx, eventos);
      r := Success(e);
    } else if c == '\n' {
      var e := TreatInstrumentChangeIn(ctx, eventos);
      r := Success(e);
    } else if c == ';' {
      var e := TreatRestIn(ctx, eventos);
      r := Success(e);
    } else {
      r := Success(eventos);
    }
  }

  /** `_inicializar_eventos`: both attributes it tests always exist, so it
      only builds the two opening events. */
  method InitEvents(ctx: ParsingContext) returns (eventos: seq<MusicalEvent>)
    ensures eventos == Preamble(StateOf(ctx))
  {
    eventos := [Tempo(ctx.tempoEvento, ctx.bpm), Instrument(ctx.tempoEvento, ctx.instrumentId)];
  }

  /** `TextParser.parse`: the events of `Interpret` from the settings' state,
      or the failure it reports. */
  method Parse(text: string, settings: PlaybackSettings, dice: Dice) returns (r: Result<seq<MusicalEvent>, ParseError>)
    ensures var t := Interpret(text, FromSettings(settings), dice);
      && r.Success? == t.Success?
      && (t.Success? ==> r.value == t.value.out)
      && (t.Failure? ==> r.error == t.error)
  {
    var ctx := new ParsingContext(settings);
    var eventos := InitEvents(ctx);
    ghost var goal := Interpret(text, FromSettings(settings), dice);
    assert StateOf(ctx) == FromSettings(settings);
    assert text[0..] == text;
    var i := 0;
    while i < |text|
      invariant 0 <= i <= |text|
      invariant Run(Tokenize(text[i..]), StateOf(ctx), eventos, dice) == goal
      decreases |text| - i
    {
      ghost var m := StateOf(ctx);
      TokenizeAt(text, i);
      if i + 3 < |text| && Upper(text[i]) == 'B' && Upper(text[i + 1]) == 'P'
         && Upper(text[i + 2]) == 'M' && Upper(text[i + 3]) == '+' {
        assert StartsWithBpmPlus(text[i..]);
        RunHead(BpmPlus, Tokenize(text[i + 4..]), m, eventos, dice);
        eventos := TreatBpmPlusIn(ctx, eventos);
        assert Run(Tokenize(text[i + 4..]), StateOf(ctx), eventos, dice) == goal;
        i := i + 4;
        continue;
      }
      var c := text[i];
      RunSingleHead(c, Tokenize(text[i + 1..]), m, eventos, dice);
      ghost var t := ProcessChar(m, c, dice(m.cursor));
      var res := ProcessCharIn(c, ctx, eventos, dice(ctx.tempoEvento));
      if res.Failure? {
        return Failure(res.error);
      }
      eventos := res.value;
      ctx.tempoEvento := ctx.tempoEvento + 1;
      assert StateOf(ctx) == t.value.state.(cursor := m.cursor + 1);
      i := i + 1;
    }
    assert text[i..] == [];
    r := Success(eventos);
  }
}
