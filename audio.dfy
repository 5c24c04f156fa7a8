/** src/audio.py: `GeradorMIDI.gerar_e_salvar`, the older copy of the
    exporter's walk. It takes the initial `EstadoMusical` but never reads it,
    and its loop is, statement for statement, the loop of `MIDIExporter.save`
    (the event field is spelled `instrumento_id` there), so it is that walk.
    Writing the file, and re-raising a failure to write it, are not modelled. */
module Audio {
  import opened Events
  import opened MidiExport
  import Modelo

  /** `GeradorMIDI.gerar_e_salvar`: the exporter's calls, whatever the state
      passed in; the state is not modified. */
  method GerarESalvar(eventos: seq<MusicalEvent>, estadoInicial: Modelo.EstadoMusical) returns (calls: seq<Call>)
    ensures calls == Expected(eventos, false, false)
  {
    calls := Save(eventos);
  }
}
