/** src/domain/models.py: the user's playback settings and the transient
    parsing context built from them. */
module Models {
  import opened Common

  /** Settings chosen in the user interface; the parser only reads them. */
  datatype PlaybackSettings = PlaybackSettings(bpm: int, volume: int, octave: int, instrumentId: int)

  /** The dataclass defaults. */
  function DefaultSettings(): (s: PlaybackSettings)
    ensures s.bpm == 120 && s.volume == 100 && s.octave == 5 && s.instrumentId == 0
  {
    PlaybackSettings(120, 100, 5, 0)
  }

  /** Mutable state of one parse. `lastNoteMidi` is `None` while the
      attribute `last_note_midi` has never been assigned (the constructor does
      not create it); `Some(-1)` is the "no last note" marker the handlers store. */
  class ParsingContext {
    var octave: int
    var volume: int
    var bpm: int
    var instrumentId: int
    var defaultLength: real
    var tempoEvento: nat
    var lastNoteMidi: Option<int>

    constructor (settings: PlaybackSettings)
      ensures octave == settings.octave && volume == settings.volume
      ensures bpm == settings.bpm && instrumentId == settings.instrumentId
      ensures defaultLength == 4.0 && tempoEvento == 0
      ensures lastNoteMidi == None
    {
      octave := settings.octave;
      volume := settings.volume;
      bpm := settings.bpm;
      instrumentId := settings.instrumentId;
      defaultLength := 4.0;
      tempoEvento := 0;
      lastNoteMidi := None;
    }
  }
}
