# txt2midi in Dafny

txt2midi turns typed text into music and MIDI files back into text. This
project models its three sequential cores and proves properties of them.

- **The single-character tokenizer**: `TextParser` in `src/domain/parser.py`
  and its older twin `MapeadorRegras` in `src/processador.py`. It walks the
  text with an index.
  - A case-insensitive `BPM+` raises the tempo by 80.
  - Every other character goes to a handler: note letters `a`–`h`, space,
    `+`/`-`, vowels `o`/`i`/`u`, `?`, newline and `;`.
  - The handler updates the parsing state (octave, volume, bpm, instrument,
    last note) in place and appends at most one event. Then the beat cursor
    moves one beat.
  - Both walks are `while` loops in methods (`Parser.Parse`,
    `Processador.ProcessarTexto`). `TextParser` and `MapeadorRegras` keep no
    state of their own, so their handlers are module-level methods. Each
    takes the state object (a `Models.ParsingContext` or a
    `Modelo.EstadoMusical`, both Dafny classes) and `modifies` it in place.
  - Each method is proved equal to one shared specification, the pure
    functions of `Dispatch` (`Dispatch.Run` over `Dispatch.Tokenize`). The
    whole-text properties are proved about that specification in `Dispatch`
    and `Properties`.
- **The MIDI→text importer**: `MIDIImporter.load` in
  `src/infrastructure/midi_importer.py`, starting from messages that are
  already decoded.
  - It pairs note-on/note-off per track (`MidiNotes.ReadNotes`), sorts by
    (start, -pitch), drops chord members and truncates overlaps
    (`MidiNotes.HandlePolyphony`).
  - It renders `R`, `I`, `V`, `>`/`<`/`O` and note tokens (`MidiText.Render`).
    The nearest-candidate quantiser `_format_duration` is
    `MidiText.FormatDuration`.
  - Each loop is a method proved against a specification function.
  - An independent reader of the text (`MidiDecode`) is proved to hear back
    every written note's instrument, velocity and pitch, in order.
- **The event→MIDI-call walk**: `MIDIExporter.save` and the two
  `GeradorMIDI.gerar_e_salvar` copies (`src/audio.py`,
  `src/servicos_audio.py`).
  - `MidiExport.Save` and `ServicosAudio.GerarESalvar` are loops that append
    abstract `addTempo`/`addProgramChange`/`addNote` calls. Each is proved
    equal to a per-event reference (`MidiExport.Expected`,
    `ServicosAudio.Walk`).
  - The loop of src/audio.py is, statement for statement, the loop of
    `MIDIExporter.save`. So `Audio.GerarESalvar` calls `MidiExport.Save`
    rather than repeating it.
  - It has a quirk: the first tempo and the first instrument events are each
    issued twice.

The tables of `src/config.py` are constants (`Config`). The events of
`src/domain/events.py` are one datatype (`Events.MusicalEvent`). Beat positions
are whole numbers (`nat`), because every cursor step is exactly one beat.
The choice made by `random.choice` is a parameter `dice: nat -> NoteLetter`,
indexed by the beat of the `?` that asks for it.

### Where the code and its description differ (the model follows the code)

- A letter whose pitch falls outside 0..127 is not clamped; it becomes a one-beat rest.
- A vowel with no last note emits only the telephone `EventoNotaEspecifica`. No instrument event comes before it, and its program is 125.
- A character that no branch matches does not lengthen the previous note. It only advances the cursor by one beat.
- `ParsingContext` never assigns `last_note_midi`. So in `TextParser.parse`, a vowel read before any note, space, `+`/`-`, newline or `;` raises `AttributeError`. This is modelled as `Failure(LastNoteUnset)`, and `Properties.ParseFromSettings` characterises it exactly.
- Nothing clamps bpm, or the octave or volume taken from the settings. The bounds proved hold when the run starts inside them.
- `MIDIImporter.load` returns one string, not a tuple.

## Model

| member | source | states |
|---|---|---|
| Config.NoteTableShape | src/config.py:7-16 | the note table has exactly the eight letters C D E F G A B H, each mapped into 60..71 |
| Config.NoteBasesDistinctModTwelve | src/config.py:7-16 | no two base notes share a pitch class, so a letter names its pitch class |
| Config.InstrumentTableShape | src/config.py:19-36 | 13 pairwise-distinct instrument ids in 0..127, first 0 and last 127; the telephone id 125 is in the table; the MIDI maximum is 127 |
| Config.InstrumentIdsOfTable | src/config.py:19-33 | the id list is the first column of `INSTRUMENTOS`, in table order |
| Models.DefaultSettings | src/domain/models.py:4-11 | default settings are bpm 120, volume 100, octave 5, instrument 0 |
| Models.ParsingContext.constructor | src/domain/models.py:17-23 | a fresh context copies octave, volume, bpm and instrument from the settings, has cursor 0 and default length 4.0, and has no last-note attribute at all |
| Modelo.EstadoMusical.constructor | src/modelo.py:4-10 | a new state is bpm 120, volume 100, octave 5, instrument 0, last note -1, beat 0 |
| Modelo.EstadoMusical.RedefinirParaPlayback | src/modelo.py:12-15 | the new fields are the old ones reset: last note -1 and beat 0, the four musical settings unchanged |
| Modelo.Reset | src/modelo.py:12-15 | a reset sets last note -1 and beat 0 and keeps bpm, volume, octave and instrument |
| Modelo.ResetIdempotent | src/modelo.py:12-15 | resetting twice equals resetting once; two states reset to the same state iff their four musical settings agree |
| Dispatch.FromSettings | src/domain/models.py:17-23 | the parsing state built from settings carries their four values, no last note and cursor 0 |
| Dispatch.GetNotaMidi | src/domain/parser.py:18-26 | a non-letter gives -1; a letter's pitch has its table pitch class, and in octave 5 it is the table value itself |
| Dispatch.GetNotaMidiOctaveStep | src/domain/parser.py:18-26 | one octave up is 12 semitones up for every letter |
| Dispatch.TreatNote | src/domain/parser.py:101-119 | exactly one event at the cursor; it is a note iff the pitch is in 0..127, with that pitch, the current volume and one beat, and that pitch becomes the last note; otherwise the effect is the rest handler's |
| Dispatch.TreatVolume | src/domain/parser.py:121-123 | no event; volume becomes min(2·volume, 127): twice the old one when that is below 127, otherwise 127; never below an in-range old volume; last note cleared, nothing else changes |
| Dispatch.TreatOctave | src/domain/parser.py:125-130 | no event; `+` gives min(octave + 1, 10): one up below 10, exactly 10 from 10 or above; anything else gives max(octave − 1, 1): one down above 1, exactly 1 from 1 or below; 1..10 is kept; last note cleared, nothing else changes |
| Dispatch.TreatVowel | src/domain/parser.py:132-157 | fails iff the last-note attribute was never assigned; otherwise one event at the cursor: the last pitch at the current volume for one beat, or with no last note the telephone note (program 125, pitch 60, volume 100, one beat); the state is unchanged |
| Dispatch.TreatRandom | src/domain/parser.py:159-165 | `?` acts exactly as the chosen letter |
| Dispatch.IndexOf | src/domain/parser.py:171-176 | the first index holding the id, or -1 iff the id is absent |
| Dispatch.NextInstrument | src/domain/parser.py:167-186 | the next instrument is always a table id, and the first id when the current one is not in the table |
| Dispatch.TreatInstrumentChange | src/domain/parser.py:167-186 | one instrument event at the cursor naming the next table id; that id becomes the instrument and the last note is cleared |
| Dispatch.TreatRest | src/domain/parser.py:188-194 | one one-beat rest at the cursor; the last note is cleared and nothing else changes |
| Dispatch.TreatBpmPlus | src/domain/parser.py:93-99 | bpm rises by 80 and one tempo event at the cursor carries the new bpm; nothing else changes |
| Dispatch.ProcessChar | src/domain/parser.py:69-91 | fails iff a vowel meets an unassigned last note; at most one event, all at the cursor; the cursor is not moved by the handler; a character with no branch changes nothing |
| Dispatch.Tokenize | src/domain/parser.py:37-48 | how the loop consumes the text: a case-insensitive `BPM+` with at least four characters left is one four-character token, anything else is one character; its properties are `Dispatch.TokenizeCovers` and `Dispatch.TokenizeAt` |
| Dispatch.Run | src/domain/parser.py:37-48 | the loop over the tokens: each step's events appended in order, a single character's handler followed by one beat, and the walk stops at the first failure; its properties are the `Dispatch.Run*` lemmas |
| Dispatch.Interpret | src/domain/parser.py:34-50 | a whole parse: the two opening events, then `Dispatch.Run` over `Dispatch.Tokenize` of the text |
| Dispatch.NextIn | src/domain/parser.py:171-178 | the id after the current one in the table, cyclically, or the first id when it is absent; its properties are `Dispatch.NextAt`, `Dispatch.NextAtLast` and the cycle lemmas |
| Dispatch.Step | src/domain/parser.py:37-48 | a `BPM+` token runs the tempo handler without moving the cursor |
| Dispatch.Preamble | src/domain/parser.py:62-67 | the opening events: tempo, then instrument, both at the cursor |
| Dispatch.TokenizeCovers | src/domain/parser.py:37-48 | single characters plus four per `BPM+` account for the whole text |
| Dispatch.TokenizeAt | src/domain/parser.py:40-46 | at every index the walk takes `BPM+` (four characters) if it starts there, else one character |
| Dispatch.RunAppend | src/domain/parser.py:37-48 | running two token lists is running the second from where the first ended |
| Dispatch.RunHead | src/domain/parser.py:37-48 | the walk stops at the first failing step and otherwise continues from its effect |
| Dispatch.RunExtends | src/domain/parser.py:37-48 | the event list only grows, by at most one event per token; the final cursor is the start plus the single characters; bpm rose by 80 per `BPM+`; volume never exceeds 127 once in range |
| Dispatch.RunTimesOrdered | src/domain/parser.py:37-48 | event times stay non-decreasing and never pass the cursor |
| Dispatch.RunPrefix | src/domain/parser.py:37-48 | a successful walk passes through every prefix of its tokens, whose events begin the final list |
| Dispatch.RunTokenTimes | src/domain/parser.py:37-48 | token j appends its events right after those of the tokens before it, all at the start plus the number of single characters before token j |
| Dispatch.RunSegmentsCover | src/domain/parser.py:37-48 | every appended event lies in the segment appended by some token |
| Dispatch.RunEventOrigin | src/domain/parser.py:37-48 | a given appended event was appended by some token j and its time is the start plus the number of single characters before token j |
| Dispatch.RunTimesAreBeatCounts | src/domain/parser.py:37-48 | each new event was appended by one token j, and its time is the start plus the number of single characters before token j |
| Dispatch.RunSound | src/domain/parser.py:101-157 | every note and specific note has a pitch and volume in 0..127 and lasts one beat; volume and last note stay valid |
| Dispatch.RunStateBounds | src/domain/parser.py:125-130 | the octave stays within 1..10, a table instrument stays in the table, and every new instrument event names a table id |
| Dispatch.RunNeverFails | src/processador.py:130-156 | with a last-note value present (the -1 marker included) no run fails |
| Dispatch.RunFailsIff | src/domain/parser.py:132-137 | from an unassigned last note, a run fails iff a vowel comes before anything that assigns the last note |
| Dispatch.UnsetAgreesWithCleared | src/domain/parser.py:132-157 | where a run from an unassigned last note succeeds, the same run from the -1 marker yields the same events and state |
| Dispatch.NextAt | src/domain/parser.py:171-178 | in a table without repeats, the successor of an id is the next entry |
| Dispatch.NextAtLast | src/domain/parser.py:171-178 | the successor of the last id wraps around to the first |
| Dispatch.CycleWalksTable | src/domain/parser.py:171-178 | n newlines from entry k land on entry k+n while inside the table |
| Dispatch.CycleRound | src/domain/parser.py:171-178 | as many newlines as table entries bring every id back to itself |
| Dispatch.CycleReturns | src/config.py:19-33 | thirteen newlines return any `INSTRUMENTOS` id to itself |
| Dispatch.UnmatchedOnlyAdvances | src/domain/parser.py:78-91 | a character with no branch emits nothing and moves only the cursor by one beat |
| Parser.StateOf | src/domain/models.py:17-23 | the specification state mirrors the context fields the handlers use |
| Parser.TreatBpmPlusIn | src/domain/parser.py:93-99 | the context and the event list change as `Dispatch.TreatBpmPlus` says, default length untouched |
| Parser.TreatRestIn | src/domain/parser.py:188-194 | the context and the event list change as `Dispatch.TreatRest` says |
| Parser.TreatNoteIn | src/domain/parser.py:101-119 | the context and the event list change as `Dispatch.TreatNote` says, including the rest fallback |
| Parser.TreatVolumeIn | src/domain/parser.py:121-123 | the context changes as `Dispatch.TreatVolume` says and no event is appended |
| Parser.TreatOctaveIn | src/domain/parser.py:125-130 | the context changes as `Dispatch.TreatOctave` says and no event is appended |
| Parser.TreatVowelIn | src/domain/parser.py:132-157 | fails exactly where `Dispatch.TreatVowel` does; otherwise appends its event |
| Parser.TreatInstrumentChangeIn | src/domain/parser.py:167-186 | the context and the event list change as `Dispatch.TreatInstrumentChange` says |
| Parser.ProcessCharIn | src/domain/parser.py:69-91 | dispatches as `_processar_caractere`; the result is `Dispatch.ProcessChar`'s |
| Parser.InitEvents | src/domain/parser.py:52-67 | returns tempo then instrument at the context's cursor |
| Parser.Parse | src/domain/parser.py:28-50 | the loop's events (or its failure) are exactly those of the specification walk from the settings' state |
| Processador.EstadoOf | src/modelo.py:4-10 | the specification state mirrors the `EstadoMusical` fields, the last note always present |
| Processador.PlaybackStart | src/processador.py:53-65 | the walk starts from the -1 marker at beat 0 with the four settings kept |
| Processador.TreatBpmPlusOn | src/processador.py:91-97 | the state and events change as `Dispatch.TreatBpmPlus` says |
| Processador.TreatRestOn | src/processador.py:187-193 | the state and events change as `Dispatch.TreatRest` says |
| Processador.TreatNoteOn | src/processador.py:99-117 | the state and events change as `Dispatch.TreatNote` says |
| Processador.TreatVolumeOn | src/processador.py:119-121 | the state changes as `Dispatch.TreatVolume` says |
| Processador.TreatOctaveOn | src/processador.py:123-128 | the state changes as `Dispatch.TreatOctave` says |
| Processador.TreatVowelOn | src/processador.py:130-156 | the state and events change as `Dispatch.TreatVowel` says, which cannot fail here |
| Processador.TreatInstrumentChangeOn | src/processador.py:166-185 | the state and events change as `Dispatch.TreatInstrumentChange` says |
| Processador.ProcessCharOn | src/processador.py:67-89 | dispatches as `_processar_caractere`; the result is `Dispatch.ProcessChar`'s |
| Processador.InitEventsOn | src/processador.py:53-65 | resets the caller's state for playback, then returns tempo and instrument at beat 0 |
| Processador.SingleOn | src/processador.py:44-49 | one character's handler and one beat move the walk one token along the specification |
| Processador.ProcessarTexto | src/processador.py:28-51 | never fails; the events are those of the specification walk from the reset state, and the caller's state ends as that walk's final state |
| Properties.InterpretShape | src/domain/parser.py:34-50 | every successful run opens with the preamble, has at most 2 + length events in non-decreasing time order; each later event was appended by one token and sits at the count of single characters before that token; the cursor ends on the count of single characters and bpm rose 80 per `BPM+` |
| Properties.InterpretBounds | src/domain/parser.py:101-186 | from in-range settings the octave stays in 1..10, volume and pitches in 0..127, instruments in the table, and every sound lasts one beat |
| Properties.ParseFromSettings | src/domain/parser.py:34-35 | `parse` fails iff a vowel comes first among the last-note-setting characters; otherwise it opens with the settings' tempo and instrument at beat 0 |
| Properties.ParsersAgree | src/processador.py:28-51 | where `parse` succeeds, `processar_texto` on the same settings yields the same events |
| Properties.ProcessadorTotal | src/processador.py:36-51 | `processar_texto` never fails, opens with the state's tempo and instrument at beat 0, and leaves the cursor on the number of single characters |
| Properties.ExportOfParse | src/infrastructure/midi_exporter.py:33-78 | exporting a parse issues the opening tempo twice and the opening instrument twice, all at beat 0, then the plain image of every later event |
| Properties.MiddleC | src/domain/parser.py:101-119 | `C` under default settings is middle C (60) for one beat at volume 100 |
| Properties.BpmPlusLowerCase | src/domain/parser.py:40-43 | lower-case `bpm+` is the command: tempo 200 at beat 0 and the next note still at beat 0 |
| Properties.RestThenNote | src/domain/parser.py:188-194 | `;` is a one-beat rest, so the next note sits on beat 1 |
| Properties.LeadingVowel | src/processador.py:130-156 | a leading vowel fails `parse` but plays the telephone note in `processar_texto` |
| MidiNotes.ReadMessage | src/infrastructure/midi_importer.py:32-55 | one message advances the tick by its delta and yields a note only when it closes one |
| MidiNotes.Close | src/infrastructure/midi_importer.py:49-55 | closing keeps the tick and program and yields at most one note |
| MidiNotes.ReadFrom | src/infrastructure/midi_importer.py:32-55 | the notes the message loop emits from a given tick, program and set of open notes; its properties are `MidiNotes.ReadFromFacts` and the scenarios |
| MidiNotes.ReadTrack | src/infrastructure/midi_importer.py:27-30 | a track is read from tick 0 on program 0 with nothing open |
| MidiNotes.ReadAll | src/infrastructure/midi_importer.py:26-55 | the notes of all tracks, track after track |
| MidiNotes.ReadFromHead | src/infrastructure/midi_importer.py:32-55 | the notes of a track are those of its first message followed by those of the rest |
| MidiNotes.ReadMessageIn | src/infrastructure/midi_importer.py:33-55 | one turn of the message loop changes tick, program, open notes and output as the specification says |
| MidiNotes.ReadNotes | src/infrastructure/midi_importer.py:25-55 | step 1 reads every track from tick 0 on program 0 with nothing open, into the specification's notes |
| MidiNotes.ReadFromFacts | src/infrastructure/midi_importer.py:27-55 | at most one note per closing message; each lasts a positive time, ends by the last tick, has a positive velocity and a program set on the way or the start one |
| MidiNotes.ReadTrackFacts | src/infrastructure/midi_importer.py:27-55 | per track: at most one note per close, positive duration within the track, program 0 or one the track set |
| MidiNotes.ReadAllFacts | src/infrastructure/midi_importer.py:27-55 | every note read from every track lasts a positive time with a positive velocity |
| MidiNotes.RepeatedNoteOn | src/infrastructure/midi_importer.py:39-44 | a second note-on of a sounding pitch is ignored: the note keeps its first start and velocity |
| MidiNotes.ZeroLengthAndProgram | src/infrastructure/midi_importer.py:35-36 | a note closed at its start is dropped; a note takes the program in effect when it opened |
| MidiNotes.SortNotes | src/infrastructure/midi_importer.py:58 | `list.sort` with key (start, -pitch) as a stable insertion sort; `MidiNotes.SortFacts` proves it ordered, a permutation and stable |
| MidiNotes.InsertMultiset | src/infrastructure/midi_importer.py:58 | insertion adds exactly one copy of the note |
| MidiNotes.InsertSorted | src/infrastructure/midi_importer.py:58 | insertion keeps the list ordered by (start, -pitch) |
| MidiNotes.InsertStable | src/infrastructure/midi_importer.py:58 | insertion puts a note after the notes with its key |
| MidiNotes.SortFacts | src/infrastructure/midi_importer.py:58 | the sort is ordered by (start ascending, pitch descending), a permutation, and stable |
| MidiNotes.Truncated | src/infrastructure/midi_importer.py:71-79 | filter B keeps the length and cuts each note by position |
| MidiNotes.KeepFirsts | src/infrastructure/midi_importer.py:62-69 | filter A: a note is kept iff it starts after the last kept start; its properties are the `MidiNotes.KeepFirsts*` lemmas |
| MidiNotes.KeepFirstsLoop | src/infrastructure/midi_importer.py:63-69 | the chord-filter loop keeps a note iff it starts after the last kept start |
| MidiNotes.TruncateLoop | src/infrastructure/midi_importer.py:71-79 | the truncation loop cuts every note but the last at the next start and appends the last unchanged |
| MidiNotes.HandlePolyphony | src/infrastructure/midi_importer.py:60-79 | step 3 is nothing for no notes, otherwise filter A then filter B |
| MidiNotes.KeepFirstsNonEmpty | src/infrastructure/midi_importer.py:62-69 | a list whose first note starts after the last kept start keeps at least one note |
| MidiNotes.KeepFirstsIncreasing | src/infrastructure/midi_importer.py:62-69 | kept notes come from the list, and their starts strictly increase |
| MidiNotes.KeepFirstsCovers | src/infrastructure/midi_importer.py:62-69 | every start of the sorted list is the start of a kept note |
| MidiNotes.KeepFirstsHighest | src/infrastructure/midi_importer.py:58-69 | a kept note has the highest pitch among the notes sharing its start |
| MidiNotes.TruncatedFacts | src/infrastructure/midi_importer.py:71-79 | truncation only changes durations; they never grow, stay positive, and each note ends by the next start |
| MidiText.BaseBeatsOfLengths | src/infrastructure/midi_importer.py:153-156 | 4.0 divided by each candidate length is the tabled base duration |
| MidiText.BestStep | src/infrastructure/midi_importer.py:164-168 | taking a candidate only when its error is strictly smaller keeps the first least-error one |
| MidiText.BestSoFarExists | src/infrastructure/midi_importer.py:155-168 | among the first n candidates some is first of least error |
| MidiText.NearestExists | src/infrastructure/midi_importer.py:155-168 | some candidate is the first nearest |
| MidiText.NearestUnique | src/infrastructure/midi_importer.py:155-168 | there is only one first nearest candidate |
| MidiText.FormatDurationSpec | src/infrastructure/midi_importer.py:145-170 | what `_format_duration` writes: nothing at 0.01 beats or less, else the first nearest of the 21 candidates; its properties are `MidiText.FormatDurationIsNearest` and `MidiText.FormatDurationEmpty` |
| MidiText.FormatDurationIsNearest | src/infrastructure/midi_importer.py:145-170 | above a hundredth of a beat the result is the spelling of the first nearest candidate |
| MidiText.FormatDurationEmpty | src/infrastructure/midi_importer.py:147-148 | the result is empty iff beats <= 0.01; otherwise it starts with the note name |
| MidiText.DottedBeats | src/infrastructure/midi_importer.py:158-162 | zero, one, two dots give 1, 3/2, 7/4 of the base |
| MidiText.CandidateBeatsAt | src/infrastructure/midi_importer.py:155-162 | candidate 3·length-index + dots has the dotted length's beats |
| MidiText.DurationIsCandidate | src/infrastructure/midi_importer.py:155-164 | what the inner loops compute is the candidate's duration and error |
| MidiText.CandidateStringAt | src/infrastructure/midi_importer.py:167-168 | the candidate is spelled name, length, dots |
| MidiText.OfferDuration | src/infrastructure/midi_importer.py:158-168 | one dots-loop turn keeps the first least-error candidate, its spelling and its error |
| MidiText.TryLength | src/infrastructure/midi_importer.py:155-168 | one length-loop turn does the same over three more candidates |
| MidiText.FormatDuration | src/infrastructure/midi_importer.py:145-170 | `_format_duration` returns the specification: empty at a hundredth of a beat or less, else the first nearest of the 21 candidates |
| MidiText.BasePitchMapOfTable | src/infrastructure/midi_importer.py:88-89 | the pitch-class map is the note table inverted without `H` |
| MidiText.NoteName | src/infrastructure/midi_importer.py:124-134 | the pitch-class name, or the natural below with `#`, or the `C` fallback; `MidiText.NoteNameFacts` gives its twelve values |
| MidiText.NoteNameFacts | src/infrastructure/midi_importer.py:124-134 | every class is a natural or a natural plus one, so the `C` fallback is never taken; the names are C C# D D# E F F# G G# A A# B |
| MidiText.RestParts | src/infrastructure/midi_importer.py:92-98 | a rest token for a positive gap, unless its duration writes as nothing |
| MidiText.InstrumentParts | src/infrastructure/midi_importer.py:103-105 | an `I` token iff the note's instrument differs from the current one |
| MidiText.VolumeParts | src/infrastructure/midi_importer.py:108-110 | a `V` token iff the note's velocity differs from the current one |
| MidiText.OctaveParts | src/infrastructure/midi_importer.py:112-122 | nothing when the octave is equal, `>` for +1, `<` for -1, `O<n>` otherwise |
| MidiText.RenderFrom | src/infrastructure/midi_importer.py:91-141 | the tokens of every note in order, each note's tokens from the cursor the previous one left; `MidiDecode.RenderHeard` is its partner |
| MidiText.RenderNote | src/infrastructure/midi_importer.py:91-141 | after a note the cursor is its end, its octave, velocity and instrument |
| MidiText.RenderFromHead | src/infrastructure/midi_importer.py:91-141 | the text of a list of notes is the first note's tokens followed by the rest's |
| MidiText.RestTokens | src/infrastructure/midi_importer.py:92-98 | a rest token only for a positive gap whose duration writes as something |
| MidiText.OctaveTokens | src/infrastructure/midi_importer.py:112-122 | nothing when equal, `>` for +1, `<` for -1, `O<n>` otherwise |
| MidiText.RenderNoteParts | src/infrastructure/midi_importer.py:91-141 | one turn of the output loop writes rest, instrument, volume, octave and note tokens and moves the cursor as specified |
| MidiText.Render | src/infrastructure/midi_importer.py:82-141 | division by zero ticks per beat fails iff there is a note; otherwise the tokens are the specification's |
| MidiText.FirstNoteAnnounced | src/infrastructure/midi_importer.py:84-110 | the first note is preceded by its rest if any, then its `I` and `V` tokens |
| MidiText.Join | src/infrastructure/midi_importer.py:143 | `' '.join`; `MidiDecode.SplitJoin` proves that splitting on spaces inverts it |
| MidiText.Processed | src/infrastructure/midi_importer.py:57-79 | steps 1 to 3: read, sort, drop chords, truncate |
| MidiText.LoadSpec | src/infrastructure/midi_importer.py:21-143 | the text `load` returns, or the division by zero ticks per beat when there is a note; `MidiDecode.LoadHeard` is its partner |
| MidiText.Load | src/infrastructure/midi_importer.py:21-143 | `load` is read, sort, filter, render and space-join, as the specification says |
| MidiText.SortedMembers | src/infrastructure/midi_importer.py:58 | sorting is ordered and keeps exactly the notes read |
| MidiText.KeptFacts | src/infrastructure/midi_importer.py:58-69 | the kept notes are notes read, with strictly increasing starts and positive durations |
| MidiText.ProcessedMonophonic | src/infrastructure/midi_importer.py:57-79 | the processed line is monophonic: starts strictly increase, each note ends by the next start, each is a read note cut short at most |
| MidiText.ProcessedHighest | src/infrastructure/midi_importer.py:57-79 | the highest of simultaneous notes is kept, and every start in the file starts a note of the line |
| MidiDecode.Split | src/infrastructure/midi_importer.py:143 | splitting on single spaces gives at least one piece |
| MidiDecode.SplitJoin | src/infrastructure/midi_importer.py:143 | splitting a space-joined list of space-free tokens gives the tokens back |
| MidiDecode.DurationShape | src/infrastructure/midi_importer.py:145-170 | a written duration is the name, then a digit, with no space and no `#` after the name |
| MidiDecode.RestHeardAsNothing | src/infrastructure/midi_importer.py:92-98 | a rest token changes nothing for the reader and sounds nothing |
| MidiDecode.InstrumentHeard | src/infrastructure/midi_importer.py:103-105 | the `I` token, if written, sets the reader's program to the note's |
| MidiDecode.VolumeHeard | src/infrastructure/midi_importer.py:108-110 | the `V` token, if written, sets the reader's velocity to the note's |
| MidiDecode.OctaveHeard | src/infrastructure/midi_importer.py:112-122 | the octave tokens bring the reader's octave to the target octave |
| MidiDecode.NameClass | src/infrastructure/midi_importer.py:124-134 | a note name is a natural letter, maybe followed by `#`, and spells the pitch's class |
| MidiDecode.NoteHeard | src/infrastructure/midi_importer.py:136-139 | at the note's octave its token is heard as its pitch at the reader's program and velocity, unless its duration writes as nothing |
| MidiDecode.RenderHeard | src/infrastructure/midi_importer.py:91-141 | reading back the rendered tokens hears exactly the audible notes in order, and no token holds a space |
| MidiDecode.LoadHeard | src/infrastructure/midi_importer.py:21-143 | reading back the text of `load` hears every written note of the monophonic line, with its program, velocity and pitch, in order |
| MidiExport.Image | src/infrastructure/midi_exporter.py:33-78 | a rest yields nothing; an event yields at most two calls, two only for the first tempo or the first instrument |
| MidiExport.Expected | src/infrastructure/midi_exporter.py:33-78 | the reference calls: each event's image in order, the two flags set by the first tempo and the first instrument; its properties are the `MidiExport` lemmas |
| MidiExport.ExpectedHead | src/infrastructure/midi_exporter.py:33-78 | the calls of a list are the first event's image followed by the rest's, with the flags updated |
| MidiExport.SaveEvent | src/infrastructure/midi_exporter.py:34-78 | one loop turn appends the event's image and sets the flag its kind sets |
| MidiExport.Save | src/infrastructure/midi_exporter.py:20-78 | the loop issues exactly the reference calls |
| MidiExport.ExpectedAppend | src/infrastructure/midi_exporter.py:33-78 | the calls of two lists concatenated are the first's followed by the second's with the flags it set |
| MidiExport.ExpectedOnTrackZero | src/infrastructure/midi_exporter.py:28-29 | every call is on track 0, and every program or note call is on channel 0 |
| MidiExport.NoteCall | src/infrastructure/midi_exporter.py:54-62 | a note or specific note yields one note call with its pitch, time, duration and volume; the specific note's instrument is dropped |
| MidiExport.NotesInOrder | src/infrastructure/midi_exporter.py:33-62 | the note calls are the note and specific-note events, in order, one each |
| MidiExport.CallCounts | src/infrastructure/midi_exporter.py:34-78 | tempo calls are the tempo events plus one when there is any; the same for programs |
| MidiExport.SteadyWalk | src/infrastructure/midi_exporter.py:65-78 | once both flags are set every non-rest event yields exactly one call |
| MidiExport.FirstTempoTwice | src/infrastructure/midi_exporter.py:34-40 | the first tempo event yields two identical tempo calls in place |
| MidiExport.FirstInstrumentTwice | src/infrastructure/midi_exporter.py:42-52 | the first instrument event yields two identical program calls in place |
| MidiExport.LaterOnce | src/infrastructure/midi_exporter.py:65-78 | a later tempo or instrument yields exactly one call in place |
| Audio.GerarESalvar | src/audio.py:28-88 | the older walk issues exactly the exporter's reference calls, whatever state is passed |
| ServicosAudio.TupleImage | src/servicos_audio.py:23-54 | a tuple fails iff shorter than its tag needs; unknown tags yield nothing; 'nota' maps [2],[3],[4] to pitch, volume, duration and the specific note [3],[4],[5], dropping [2] |
| ServicosAudio.Walk | src/servicos_audio.py:23-54 | the reference walk over tuples: each tuple's image in order, stopping at the first index error |
| ServicosAudio.WalkEvent | src/servicos_audio.py:24-54 | one loop turn reads the entries in the source's order and appends the tuple's image or stops with an index error |
| ServicosAudio.GerarESalvar | src/servicos_audio.py:12-54 | the loop issues exactly the reference walk's calls, or its index error |
| ServicosAudio.WalkFailsIff | src/servicos_audio.py:23-54 | the walk fails iff some tuple is shorter than its tag needs |
| ServicosAudio.UnknownTagSilent | src/servicos_audio.py:23-54 | a tuple with any other tag yields nothing and changes no flag |
| ServicosAudio.Encode | src/servicos_audio.py:24-47 | each typed event encodes as a well-formed tuple whose tag names its kind |
| ServicosAudio.EncodedImage | src/servicos_audio.py:23-54 | the tuple image of an encoded event is the typed exporter's image |
| ServicosAudio.EncodedWalk | src/servicos_audio.py:23-54 | walking encoded events never fails and issues exactly the typed exporter's calls |
| Common.Upper | src/domain/parser.py:20 | `str.upper()` on one character: `a`..`z` become `A`..`Z`, every other character is kept |
| Common.Lower | src/domain/parser.py:76 | `str.lower()` on one character: `A`..`Z` become `a`..`z`, every other character is kept |
| Common.DecimalString | src/infrastructure/midi_importer.py:104-121 | the `f'I{n}'`, `f'V{n}'` and `f'O{n}'` spelling of a natural; `Common.ParseDecimalString` reads it back |
| Common.DecimalStringDigits | src/infrastructure/midi_importer.py:104-121 | a number is written with digits only |
| Common.ParseDecimalString | src/infrastructure/midi_importer.py:104-121 | reading a written number back gives the number |

## Left out

- The GTK user interface, the playback threads and players, the controller and its MML mode: they are I/O, threads and timers.
- The `mido` file read: messages arrive as a datatype, and only note-on, note-off and program-change are told apart.
- The midiutil `MIDIFile`, `writeFile` and the file open: calls are appended to a list. The True/False result and the re-raise after logging are I/O outcomes.
- `random.choice`: the chosen letter comes from the `dice` parameter.
- `EstadoMusical.duracao_padrao_seg`: floating-point seconds, used only by playback.
- Floating point: beats and durations are exact reals, and 0.01 is exactly 1/100. The cursor `+= 1.0` is a whole-number step.
- Character casing: only ASCII letters change case.
- MidiNotes.SortNotes: the in-place `list.sort` is a stable sort on a sequence value, so sorting in place is not modelled.
- MidiNotes.Truncated: the in-place overwrite of `duration_ticks` is a new sequence. Its aliasing is not modelled; `processed_events` holds the same objects in the source.
- Models.ParsingContext.constructor: `default_length` is set but no operation reads it.
- Properties.InterpretBounds: nothing in the source clamps bpm, or an out-of-range starting octave or volume. So the bounds are stated only from in-range settings.
- The tag of a rest tuple in src/servicos_audio.py: it is produced where the tuples are built, which is not part of this model. `ServicosAudio.Encode` uses `pausa`, and `ServicosAudio.UnknownTagSilent` covers any tag.
- `constantes` and `eventos`, imported by src/processador.py and src/audio.py, are not part of this model. They are taken to be src/config.py and src/domain/events.py, and the event field `instrumento_id` is read as `instrument_id`.
- `source_index`, read at src/infrastructure/audio_player.py:62: no event has such a field.
