/** The musical events of src/domain/events.py, one constructor per dataclass.
    Every event carries its beat position `time`; the tokenizers advance the
    beat cursor in whole beats only, so positions are naturals. */
module Events {

  datatype MusicalEvent =
    | Tempo(time: nat, bpm: int)
    | Instrument(time: nat, instrumentId: int)
    | Note(time: nat, pitch: int, volume: int, duration: real)
    | SpecificNote(time: nat, instrumentId: int, pitch: int, volume: int, duration: real)
    | Rest(time: nat, duration: real)

  /** Beat positions never decrease along the list. */
  predicate TimesOrdered(es: seq<MusicalEvent>) {
    forall j, k :: 0 <= j < k < |es| ==> es[j].time <= es[k].time
  }

  /** Every beat position in the list is at most `t`. */
  predicate TimesAtMost(es: seq<MusicalEvent>, t: nat) {
    forall k :: 0 <= k < |es| ==> es[k].time <= t
  }
}
