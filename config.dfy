/** The constant tables of src/config.py. */
module Config {

  /** Largest value of a MIDI data byte (notes, volumes, programs). */
  const MaxMidiValue: int := 127

  /** Base MIDI number of each note letter in octave 5; `H` is the German B flat. */
  const NoteBase: map<char, int> :=
    map['C' := 60, 'D' := 62, 'E' := 64, 'F' := 65, 'G' := 67, 'A' := 69, 'B' := 71, 'H' := 70]

  /** The keys of `NoteBase` in the order in which the table writes them. */
  const NoteLetters: string := "CDEFGABH"

  /** General MIDI programs offered to the user, in table order. */
  const Instruments: seq<(int, string)> := [
    (0, "Acoustic Grand Piano"),
    (24, "Acoustic Guitar (nylon)"),
    (33, "Electric Bass (finger)"),
    (40, "Violin"),
    (56, "Trumpet"),
    (65, "Alto Sax"),
    (73, "Flute"),
    (15, "Tubular Bells"),
    (110, "Bag pipe"),
    (114, "Agogo"),
    (123, "Seashore"),
    (125, "Telephone Ring"),
    (127, "Gunshot")
  ]

  /** The program of the telephone effect played by a vowel with no last note. */
  const TelephoneProgram: int := 125

  /** The ids of `Instruments`, in order (`[id for id, _ in INSTRUMENTOS]`). */
  const InstrumentIds: seq<int> := [0, 24, 33, 40, 56, 65, 73, 15, 110, 114, 123, 125, 127]

  lemma InstrumentIdsOfTable()
    ensures |InstrumentIds| == |Instruments|
    ensures forall k :: 0 <= k < |InstrumentIds| ==> InstrumentIds[k] == Instruments[k].0
  {
  }

  lemma NoteTableShape()
    ensures NoteBase.Keys == set c | c in NoteLetters
    ensures |NoteLetters| == 8
    ensures forall k :: 0 <= k < |NoteLetters| ==> 60 <= NoteBase[NoteLetters[k]] <= 71
    ensures forall j, k :: 0 <= j < k < |NoteLetters| ==> NoteLetters[j] != NoteLetters[k]
  {
  }

  /** No two letters share a pitch class, so a letter names its pitch class. */
  lemma NoteBasesDistinctModTwelve()
    ensures forall j, k :: 0 <= j < k < |NoteLetters| ==>
      NoteBase[NoteLetters[j]] % 12 != NoteBase[NoteLetters[k]] % 12
  {
  }

  lemma InstrumentTableShape()
    ensures |InstrumentIds| == 13
    ensures InstrumentIds[0] == 0 && InstrumentIds[12] == 127
    ensures forall k :: 0 <= k < 13 ==> 0 <= InstrumentIds[k] <= MaxMidiValue
    ensures forall j, k :: 0 <= j < k < 13 ==> InstrumentIds[j] != InstrumentIds[k]
    ensures TelephoneProgram in InstrumentIds && InstrumentIds[11] == TelephoneProgram
    ensures MaxMidiValue == 127
  {
  }
}
