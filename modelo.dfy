/** src/modelo.py: `EstadoMusical`, the caller-owned musical state that the
    older `MapeadorRegras` updates in place. */
module Modelo {

  /** The values of the fields of an `EstadoMusical`. */
  datatype Fields = Fields(bpm: int, volume: int, oitava: int, instrumentoId: int, ultimaNotaMidi: int, tempoEvento: nat)

  /** What `redefinir_para_playback` does to the fields: the last note
      becomes the marker -1 and the cursor returns to beat 0; nothing else moves. */
  function Reset(f: Fields): (r: Fields)
    ensures r.ultimaNotaMidi == -1 && r.tempoEvento == 0
    ensures r.bpm == f.bpm && r.volume == f.volume && r.oitava == f.oitava && r.instrumentoId == f.instrumentoId
  {
    f.(ultimaNotaMidi := -1, tempoEvento := 0)
  }

  /** Resetting twice is resetting once, and a reset only depends on the four
      musical settings. */
  lemma ResetIdempotent(f: Fields, g: Fields)
    ensures Reset(Reset(f)) == Reset(f)
    ensures Reset(f) == Reset(g) <==>
      f.bpm == g.bpm && f.volume == g.volume && f.oitava == g.oitava && f.instrumentoId == g.instrumentoId
  {
  }

  class EstadoMusical {
    var bpm: int
    var volume: int
    var oitava: int
    var instrumentoId: int
    var ultimaNotaMidi: int
    var tempoEvento: nat

    function Snapshot(): (f: Fields)
      reads this
      ensures f.bpm == bpm && f.volume == volume && f.oitava == oitava && f.instrumentoId == instrumentoId
      ensures f.ultimaNotaMidi == ultimaNotaMidi && f.tempoEvento == tempoEvento
    {
      Fields(bpm, volume, oitava, instrumentoId, ultimaNotaMidi, tempoEvento)
    }

    /** 120 beats per minute, volume 100, octave 5, the piano, no last note, beat 0. */
    constructor ()
      ensures Snapshot() == Fields(120, 100, 5, 0, -1, 0)
    {
      bpm := 120;
      volume := 100;
      oitava := 5;
      instrumentoId := 0;
      ultimaNotaMidi := -1;
      tempoEvento := 0;
    }

    /** `redefinir_para_playback`. */
    method RedefinirParaPlayback()
      modifies this
      ensures Snapshot() == Reset(old(Snapshot()))
    {
      ultimaNotaMidi := -1;
      tempoEvento := 0;
    }
  }
}
