/** Whole-text properties of the tokenizer, for the two starting states the
    sources use: `TextParser.parse` starts from the settings with the
    last-note attribute unassigned, `MapeadorRegras.processar_texto` from the
    reset `EstadoMusical` holding the marker. */
module Properties {
  import opened Common
  import opened Config
  import opened Events
  import opened Models
  import opened Dispatch
  import Processador
  import MidiExport

  /** Any successful run: the two opening events first, then at most one
      event per character, in non-decreasing beat order; each later event is
      appended by one token and sits at the number of single characters
      before that token; the cursor ends on the count of single characters
      and the tempo went up 80 per `BPM+`. */
  lemma InterpretShape(text: string, m: State, dice: Dice)
    requires Interpret(text, m, dice).Success?
    ensures var o, ts := Interpret(text, m, dice).value, Tokenize(text);
      && Preamble(m) <= o.out
      && |o.out| <= 2 + |text|
      && TimesOrdered(o.out)
      && o.state.cursor == m.cursor + Singles(ts)
      && o.state.bpm == m.bpm + 80 * BpmPluses(ts)
      && Singles(ts) + 4 * BpmPluses(ts) == |text|
      && forall k: nat :: 2 <= k < |o.out| ==> TimedByToken(ts, m, Preamble(m), dice, k)
  {
    var ts, pre := Tokenize(text), Preamble(m);
    assert Interpret(text, m, dice) == Run(ts, m, pre, dice);
    TokenizeCovers(text);
    RunExtends(ts, m, pre, dice);
    RunTimesOrdered(ts, m, pre, dice);
    RunTimesAreBeatCounts(ts, m, pre, dice);
  }

  /** The bounds every run keeps: octave in 1..10, volume and pitches in MIDI
      range, one-beat sounds, and instruments from the table. */
  lemma InterpretBounds(text: string, m: State, dice: Dice)
    requires Interpret(text, m, dice).Success?
    requires 1 <= m.octave <= 10 && 0 <= m.volume <= MaxMidiValue && m.instrument in InstrumentIds
    requires LastValid(m.last)
    ensures var o := Interpret(text, m, dice).value;
      && 1 <= o.state.octave <= 10 && 0 <= o.state.volume <= MaxMidiValue
      && o.state.instrument in InstrumentIds
      && (forall k :: 0 <= k < |o.out| ==> Sound(o.out[k]))
      && forall k :: 0 <= k < |o.out| && o.out[k].Instrument? ==> o.out[k].instrumentId in InstrumentIds
  {
    var ts, pre := Tokenize(text), Preamble(m);
    assert Interpret(text, m, dice) == Run(ts, m, pre, dice);
    assert forall k :: 0 <= k < |pre| ==> Sound(pre[k]);
    RunSound(ts, m, pre, dice);
    RunStateBounds(ts, m, pre, dice);
    RunExtends(ts, m, pre, dice);
    var o := Run(ts, m, pre, dice).value;
    forall k | 0 <= k < |o.out| && o.out[k].Instrument?
      ensures o.out[k].instrumentId in InstrumentIds
    {
      if k < |pre| {
        assert o.out[k] == pre[k];
      }
    }
  }

  /** `TextParser.parse` opens with the settings' tempo and instrument at beat
      0 and fails exactly when a vowel comes before anything that assigns the
      last note. */
  lemma ParseFromSettings(text: string, settings: PlaybackSettings, dice: Dice)
    ensures Interpret(text, FromSettings(settings), dice).Failure? <==> VowelFirst(Tokenize(text))
    ensures Interpret(text, FromSettings(settings), dice).Success? ==>
      [Tempo(0, settings.bpm), Instrument(0, settings.instrumentId)] <= Interpret(text, FromSettings(settings), dice).value.out
  {
    RunFailsIff(Tokenize(text), FromSettings(settings), Preamble(FromSettings(settings)), dice);
    if Interpret(text, FromSettings(settings), dice).Success? {
      InterpretShape(text, FromSettings(settings), dice);
    }
  }

  /** Where `TextParser.parse` succeeds, `MapeadorRegras.processar_texto` on
      a state holding the same four settings yields the very same events. */
  lemma ParsersAgree(text: string, settings: PlaybackSettings, m: State, dice: Dice)
    requires Interpret(text, FromSettings(settings), dice).Success?
    requires m.octave == settings.octave && m.volume == settings.volume
    requires m.bpm == settings.bpm && m.instrument == settings.instrumentId
    ensures Interpret(text, Processador.PlaybackStart(m), dice).Success?
    ensures Interpret(text, Processador.PlaybackStart(m), dice).value.out ==
      Interpret(text, FromSettings(settings), dice).value.out
  {
    var s := FromSettings(settings);
    assert Processador.PlaybackStart(m) == s.(last := Some(Cleared));
    assert s == s.(last := None);
    UnsetAgreesWithCleared(Tokenize(text), s, Preamble(s), dice);
    assert Preamble(s) == Preamble(s.(last := Some(Cleared)));
  }

  /** `processar_texto` never fails, and leaves the cursor on the number of
      characters read one at a time. */
  lemma ProcessadorTotal(text: string, m: State, dice: Dice)
    ensures Interpret(text, Processador.PlaybackStart(m), dice).Success?
    ensures Interpret(text, Processador.PlaybackStart(m), dice).value.state.cursor == Singles(Tokenize(text))
    ensures [Tempo(0, m.bpm), Instrument(0, m.instrument)] <= Interpret(text, Processador.PlaybackStart(m), dice).value.out
  {
    var s := Processador.PlaybackStart(m);
    RunNeverFails(Tokenize(text), s, Preamble(s), dice);
    InterpretShape(text, s, dice);
  }

  /** Exporting what `TextParser.parse` produced: the opening tempo and
      instrument are each issued twice at beat 0, and every later event is
      issued as its plain image, with both flags already set. */
  lemma ExportOfParse(text: string, settings: PlaybackSettings, dice: Dice)
    requires Interpret(text, FromSettings(settings), dice).Success?
    ensures var out := Interpret(text, FromSettings(settings), dice).value.out;
      var t := MidiExport.AddTempo(0, 0, settings.bpm);
      var p := MidiExport.AddProgramChange(0, 0, 0, settings.instrumentId);
      && |out| >= 2
      && MidiExport.Expected(out, false, false) == [t, t, p, p] + MidiExport.Expected(out[2..], true, true)
  {
    ParseFromSettings(text, settings, dice);
    var out := Interpret(text, FromSettings(settings), dice).value.out;
    assert out[0] == Tempo(0, settings.bpm) && out[1] == Instrument(0, settings.instrumentId);
    MidiExport.ExpectedHead(out, false, false);
    MidiExport.ExpectedHead(out[1..], true, false);
    assert out[1..][1..] == out[2..];
  }

  // ------------------------------------------------------------ scenarios

  /** `C` with the default settings: middle C for one beat at volume 100. */
  lemma MiddleC(dice: Dice)
    ensures Interpret("C", FromSettings(DefaultSettings()), dice) ==
      Success(Effect(State(5, 100, 120, 0, Some(60), 1), [Tempo(0, 120), Instrument(0, 0), Note(0, 60, 100, 1.0)]))
  {
    var m := FromSettings(DefaultSettings());
    assert Tokenize("C") == [Single('C')] + [];
    assert GetNotaMidi('C', 5) == 60;
    RunSingleHead('C', [], m, Preamble(m), dice);
    assert Lower('C') == 'c';
    assert TreatNote(m, 'C') == Effect(m.(last := Some(60)), [Note(0, 60, 100, 1.0)]);
    assert ProcessChar(m, 'C', dice(0)) == Success(Effect(m.(last := Some(60)), [Note(0, 60, 100, 1.0)]));
    assert m.(last := Some(60), cursor := 1) == State(5, 100, 120, 0, Some(60), 1);
    assert Preamble(m) + [Note(0, 60, 100, 1.0)] == [Tempo(0, 120), Instrument(0, 0), Note(0, 60, 100, 1.0)];
  }

  /** `bpm+` in lower case is the command: the tempo 200 is announced at beat 0
      and the following note is still on beat 0. */
  lemma BpmPlusLowerCase(dice: Dice)
    ensures Interpret("bpm+a", FromSettings(DefaultSettings()), dice).Success?
    ensures Interpret("bpm+a", FromSettings(DefaultSettings()), dice).value.out ==
      [Tempo(0, 120), Instrument(0, 0), Tempo(0, 200), Note(0, 69, 100, 1.0)]
  {
    assert StartsWithBpmPlus("bpm+a");
    assert "bpm+a"[4..] == "a";
    assert Tokenize("bpm+a") == [BpmPlus, Single('a')];
  }

  /** `;` is a one-beat rest, so the note after it sits on beat 1. */
  lemma RestThenNote(dice: Dice)
    ensures Interpret(";C", FromSettings(DefaultSettings()), dice).Success?
    ensures Interpret(";C", FromSettings(DefaultSettings()), dice).value.out ==
      [Tempo(0, 120), Instrument(0, 0), Rest(0, 1.0), Note(1, 60, 100, 1.0)]
  {
    assert ";C"[1..] == "C";
    assert Tokenize(";C") == [Single(';'), Single('C')];
  }

  /** A leading vowel: `TextParser.parse` fails on the unassigned attribute,
      `processar_texto` plays the telephone note. */
  lemma LeadingVowel(m: State, dice: Dice)
    ensures Interpret("o", FromSettings(DefaultSettings()), dice) == Failure(LastNoteUnset)
    ensures Interpret("o", Processador.PlaybackStart(m), dice).Success?
    ensures Interpret("o", Processador.PlaybackStart(m), dice).value.out ==
      [Tempo(0, m.bpm), Instrument(0, m.instrument), SpecificNote(0, TelephoneProgram, 60, 100, 1.0)]
  {
    assert Tokenize("o") == [Single('o')];
  }
}
