/** Steps 1 to 3 of `MIDIImporter.load` (src/infrastructure/midi_importer.py):
    pair note-on and note-off messages into notes, sort them by start and
    then by falling pitch, drop chord members below the top note and cut
    each note short where the next one starts. The file as read by `mido` is
    an abstract value here. */
module MidiNotes {

  /** A MIDI data byte; `mido` rejects anything outside 0..127. */
  type Byte7 = x: int | 0 <= x <= 127

  /** The messages the importer tells apart, each with its delta time in ticks. */
  datatype Message =
    | ProgramChange(delta: nat, program: Byte7)
    | NoteOn(delta: nat, note: Byte7, velocity: Byte7)
    | NoteOff(delta: nat, note: Byte7, velocity: Byte7)
    | OtherMessage(delta: nat)

  datatype MidiFile = MidiFile(ticksPerBeat: nat, tracks: seq<seq<Message>>)

  /** The `NoteEvent` dataclass. */
  datatype NoteEvent = NoteEvent(startTicks: nat, durationTicks: int, pitch: Byte7, velocity: Byte7, instrument: Byte7)

  // ------------------------------------------------------------ 1. reading

  /** An entry of `active_notes`: where the note started, how hard, on what. */
  datatype Opened = Opened(start: nat, velocity: Byte7, instrument: Byte7)

  /** The per-track loop variables. */
  datatype Reader = Reader(ticks: nat, instrument: Byte7, active: map<Byte7, Opened>)

  datatype ReadStep = ReadStep(reader: Reader, out: seq<NoteEvent>)

  /** A message that ends a sounding note: `note_off`, or `note_on` at velocity 0. */
  predicate Closes(msg: Message) {
    msg.NoteOff? || (msg.NoteOn? && msg.velocity == 0)
  }

  /** One turn of the message loop. */
  function ReadMessage(r: Reader, msg: Message): (s: ReadStep)
    ensures s.reader.ticks == r.ticks + msg.delta
    ensures |s.out| <= 1 && (|s.out| == 1 ==> Closes(msg))
  {
    var ticks := r.ticks + msg.delta;
    match msg
    case ProgramChange(_, p) => ReadStep(Reader(ticks, p, r.active), [])
    case NoteOn(_, n, v) =>
      if v > 0 then
        if n !in r.active then ReadStep(Reader(ticks, r.instrument, r.active[n := Opened(ticks, v, r.instrument)]), [])
        else ReadStep(Reader(ticks, r.instrument, r.active), [])
      else Close(r, ticks, n)
    case NoteOff(_, n, _) => Close(r, ticks, n)
    case OtherMessage(_) => ReadStep(Reader(ticks, r.instrument, r.active), [])
  }

  /** Pops an open note of pitch `n` and keeps it when it lasted a positive time. */
  function Close(r: Reader, ticks: nat, n: Byte7): (s: ReadStep)
    ensures s.reader.ticks == ticks && s.reader.instrument == r.instrument
    ensures |s.out| <= 1
  {
    if n in r.active then
      var o := r.active[n];
      var duration := ticks - o.start;
      var rest := Reader(ticks, r.instrument, r.active - {n});
      if duration > 0 then ReadStep(rest, [NoteEvent(o.start, duration, n, o.velocity, o.instrument)])
      else ReadStep(rest, [])
    else ReadStep(Reader(ticks, r.instrument, r.active), [])
  }

  /** The notes read from `msgs` by a loop in state `r`. */
  function ReadFrom(msgs: seq<Message>, r: Reader): seq<NoteEvent>
    decreases |msgs|
  {
    if msgs == [] then []
    else var s := ReadMessage(r, msgs[0]); s.out + ReadFrom(msgs[1..], s.reader)
  }

  /** A track starts at tick 0 on program 0 with nothing sounding. */
  const TrackStart: Reader := Reader(0, 0, map[])

  function ReadTrack(track: seq<Message>): seq<NoteEvent> {
    ReadFrom(track, TrackStart)
  }

  /** The notes of every track, track after track. */
  function ReadAll(tracks: seq<seq<Message>>): seq<NoteEvent>
    decreases |tracks|
  {
    if tracks == [] then [] else ReadAll(tracks[..|tracks| - 1]) + ReadTrack(tracks[|tracks| - 1])
  }

  /** One message at the head of the rest. */
  lemma ReadFromHead(msgs: seq<Message>, r: Reader)
    requires msgs != []
    ensures ReadFrom(msgs, r) == ReadMessage(r, msgs[0]).out + ReadFrom(msgs[1..], ReadMessage(r, msgs[0]).reader)
  {
  }

  /** The body of the message loop of step 1: the new tick, program and
      sounding notes, and the note closed, if any. */
  method ReadMessageIn(msg: Message, currentTicks: nat, currentInstrument: Byte7, activeNotes: map<Byte7, Opened>)
    returns (ticks: nat, instrument: Byte7, active: map<Byte7, Opened>, out: seq<NoteEvent>)
    ensures Reader(ticks, instrument, active) == ReadMessage(Reader(currentTicks, currentInstrument, activeNotes), msg).reader
    ensures out == ReadMessage(Reader(currentTicks, currentInstrument, activeNotes), msg).out
  {
    ticks, instrument, active, out := currentTicks + msg.delta, currentInstrument, activeNotes, [];
    match msg {
      case ProgramChange(_, p) =>
        instrument := p;
      case NoteOn(_, n, v) =>
        if v > 0 {
          if n !in active {
            active := active[n := Opened(ticks, v, instrument)];
          }
        } else if n in active {
          var o := active[n];
          active := active - {n};
          var duration := ticks - o.start;
          if duration > 0 {
            out := [NoteEvent(o.start, duration, n, o.velocity, o.instrument)];
          }
        }
      case NoteOff(_, n, _) =>
        if n in active {
          var o := active[n];
          active := active - {n};
          var duration := ticks - o.start;
          if duration > 0 {
            out := [NoteEvent(o.start, duration, n, o.velocity, o.instrument)];
          }
        }
      case OtherMessage(_) =>
    }
  }

  /** Step 1 of `load`: every track from tick 0 on program 0. */
  method ReadNotes(file: MidiFile) returns (raw: seq<NoteEvent>)
    ensures raw == ReadAll(file.tracks)
  {
    var tracks := file.tracks;
    raw := [];
    for t := 0 to |tracks|
      invariant raw == ReadAll(tracks[..t])
    {
      var track := tracks[t];
      var currentTicks: nat := 0;
      var currentInstrument: Byte7 := 0;
      var activeNotes: map<Byte7, Opened> := map[];
      assert track[0..] == track;
      for i := 0 to |track|
        invariant raw + ReadFrom(track[i..], Reader(currentTicks, currentInstrument, activeNotes))
          == ReadAll(tracks[..t]) + ReadTrack(track)
      {
        ReadFromHead(track[i..], Reader(currentTicks, currentInstrument, activeNotes));
        assert track[i..][1..] == track[i + 1..];
        var out;
        currentTicks, currentInstrument, activeNotes, out := ReadMessageIn(track[i], currentTicks, currentInstrument, activeNotes);
        raw := raw + out;
      }
      assert track[|track|..] == [];
      assert tracks[..t + 1][..t] == tracks[..t];
    }
    assert tracks[..|tracks|] == tracks;
  }

  /** Sum of the delta times: the tick of the last message. */
  function TotalTicks(msgs: seq<Message>): nat
    decreases |msgs|
  {
    if msgs == [] then 0 else msgs[0].delta + TotalTicks(msgs[1..])
  }

  function CountCloses(msgs: seq<Message>): nat
    decreases |msgs|
  {
    if msgs == [] then 0 else (if Closes(msgs[0]) then 1 else 0) + CountCloses(msgs[1..])
  }

  /** A note as the reader builds it: it lasts a positive number of ticks
      and was struck with positive velocity. */
  predicate ReadNote(e: NoteEvent) {
    e.durationTicks > 0 && e.velocity > 0
  }

  predicate ReaderOk(r: Reader, programs: set<int>) {
    && r.instrument in programs
    && forall n :: n in r.active ==>
         r.active[n].start <= r.ticks && r.active[n].velocity > 0 && r.active[n].instrument in programs
  }

  /** Every note read from `msgs` was opened and closed inside them: it lasts
      a positive time and ends by the last tick, its velocity is positive, its
      instrument is the start program or one of the programs set on the way,
      and at most one note comes out per closing message. */
  lemma {:induction false} ReadFromFacts(msgs: seq<Message>, r: Reader, programs: set<int>)
    requires ReaderOk(r, programs)
    requires forall k :: 0 <= k < |msgs| && msgs[k].ProgramChange? ==> msgs[k].program in programs
    ensures var out := ReadFrom(msgs, r);
      && |out| <= CountCloses(msgs)
      && forall k :: 0 <= k < |out| ==>
           ReadNote(out[k]) && out[k].startTicks + out[k].durationTicks <= r.ticks + TotalTicks(msgs)
           && out[k].instrument in programs
    decreases |msgs|
  {
    if msgs != [] {
      var s := ReadMessage(r, msgs[0]);
      assert ReaderOk(s.reader, programs);
      assert forall k :: 0 <= k < |msgs[1..]| && msgs[1..][k].ProgramChange? ==> msgs[1..][k].program in programs by {
        forall k | 0 <= k < |msgs[1..]| && msgs[1..][k].ProgramChange? ensures msgs[1..][k].program in programs {
          assert msgs[1..][k] == msgs[k + 1];
        }
      }
      ReadFromFacts(msgs[1..], s.reader, programs);
      assert forall k :: 0 <= k < |s.out| ==>
        ReadNote(s.out[k]) && s.out[k].startTicks + s.out[k].durationTicks <= s.reader.ticks
        && s.out[k].instrument in programs;
    }
  }

  /** The programs a track sets, with the start program 0. */
  function TrackPrograms(track: seq<Message>): set<int> {
    {0} + set k | 0 <= k < |track| && track[k].ProgramChange? :: track[k].program
  }

  lemma ReadTrackFacts(track: seq<Message>)
    ensures var out := ReadTrack(track);
      && |out| <= CountCloses(track)
      && forall k :: 0 <= k < |out| ==>
           ReadNote(out[k]) && out[k].startTicks + out[k].durationTicks <= TotalTicks(track)
           && out[k].instrument in TrackPrograms(track)
  {
    ReadFromFacts(track, TrackStart, TrackPrograms(track));
  }

  /** Every note of every track satisfies `ReadNote`. */
  lemma {:induction false} ReadAllFacts(tracks: seq<seq<Message>>)
    ensures forall k :: 0 <= k < |ReadAll(tracks)| ==> ReadNote(ReadAll(tracks)[k])
    decreases |tracks|
  {
    if tracks != [] {
      ReadAllFacts(tracks[..|tracks| - 1]);
      ReadTrackFacts(tracks[|tracks| - 1]);
    }
  }

  /** A second `note_on` of a sounding pitch is ignored: the note keeps its
      first start and velocity; `note_on` at velocity 0 ends it. */
  lemma RepeatedNoteOn()
    ensures ReadTrack([NoteOn(0, 60, 100), NoteOn(10, 60, 90), NoteOn(20, 60, 0)]) == [NoteEvent(0, 30, 60, 100, 0)]
  {
    var t := [NoteOn(0, 60, 100), NoteOn(10, 60, 90), NoteOn(20, 60, 0)];
    assert t[1..] == [NoteOn(10, 60, 90), NoteOn(20, 60, 0)];
    assert t[1..][1..] == [NoteOn(20, 60, 0)];
    assert t[1..][1..][1..] == [];
  }

  /** A note closed on the tick it opened is dropped, and the program in effect
      when a note opens is the one it keeps. */
  lemma ZeroLengthAndProgram()
    ensures ReadTrack([NoteOn(0, 64, 80), NoteOff(0, 64, 0)]) == []
    ensures ReadTrack([ProgramChange(0, 40), NoteOn(5, 64, 80), ProgramChange(1, 73), NoteOff(4, 64, 0)]) ==
      [NoteEvent(5, 5, 64, 80, 40)]
  {
    var t := [NoteOn(0, 64, 80), NoteOff(0, 64, 0)];
    assert t[1..] == [NoteOff(0, 64, 0)] && t[1..][1..] == [];
    var u := [ProgramChange(0, 40), NoteOn(5, 64, 80), ProgramChange(1, 73), NoteOff(4, 64, 0)];
    assert u[1..] == [NoteOn(5, 64, 80), ProgramChange(1, 73), NoteOff(4, 64, 0)];
    assert u[1..][1..] == [ProgramChange(1, 73), NoteOff(4, 64, 0)];
    assert u[1..][1..][1..] == [NoteOff(4, 64, 0)];
    assert u[1..][1..][1..][1..] == [];
  }

  // ------------------------------------------------------------ 2. sorting

  /** The order of the sort key `(start_ticks, -pitch)`. */
  predicate KeyLe(a: NoteEvent, b: NoteEvent) {
    a.startTicks < b.startTicks || (a.startTicks == b.startTicks && a.pitch >= b.pitch)
  }

  predicate SameKey(a: NoteEvent, b: NoteEvent) {
    a.startTicks == b.startTicks && a.pitch == b.pitch
  }

  predicate SortedByKey(s: seq<NoteEvent>) {
    forall j, k :: 0 <= j < k < |s| ==> KeyLe(s[j], s[k])
  }

  /** Inserts `x` after every element whose key is not above its own. */
  function Insert(t: seq<NoteEvent>, x: NoteEvent): seq<NoteEvent>
    decreases |t|
  {
    if t == [] || KeyLe(t[|t| - 1], x) then t + [x]
    else Insert(t[..|t| - 1], x) + [t[|t| - 1]]
  }

  /** `list.sort` with that key: a stable sort (insertion sort). */
  function SortNotes(s: seq<NoteEvent>): seq<NoteEvent>
    decreases |s|
  {
    if s == [] then [] else Insert(SortNotes(s[..|s| - 1]), s[|s| - 1])
  }

  /** The elements with key equal to that of `y`, in list order. */
  function WithKeyOf(s: seq<NoteEvent>, y: NoteEvent): seq<NoteEvent>
    decreases |s|
  {
    if s == [] then []
    else WithKeyOf(s[..|s| - 1], y) + (if SameKey(s[|s| - 1], y) then [s[|s| - 1]] else [])
  }

  lemma {:induction false} InsertMultiset(t: seq<NoteEvent>, x: NoteEvent)
    ensures multiset(Insert(t, x)) == multiset(t) + multiset{x}
    decreases |t|
  {
    if !(t == [] || KeyLe(t[|t| - 1], x)) {
      assert t == t[..|t| - 1] + [t[|t| - 1]];
      InsertMultiset(t[..|t| - 1], x);
    }
  }

  lemma {:induction false} InsertSorted(t: seq<NoteEvent>, x: NoteEvent)
    requires SortedByKey(t)
    ensures SortedByKey(Insert(t, x))
    decreases |t|
  {
    if !(t == [] || KeyLe(t[|t| - 1], x)) {
      var t', l := t[..|t| - 1], t[|t| - 1];
      assert t == t' + [l];
      InsertSorted(t', x);
      InsertMultiset(t', x);
      var i := Insert(t', x);
      var r := i + [l];
      forall j, k | 0 <= j < k < |r| ensures KeyLe(r[j], r[k]) {
        if k == |r| - 1 {
          assert r[j] in multiset(i);
          if r[j] != x {
            assert r[j] in multiset(t');
            var m :| 0 <= m < |t'| && t'[m] == r[j];
            assert t[m] == r[j];
          }
        } else {
          assert r[j] == i[j] && r[k] == i[k];
        }
      }
    }
  }

  lemma {:induction false} InsertStable(t: seq<NoteEvent>, x: NoteEvent, y: NoteEvent)
    ensures WithKeyOf(Insert(t, x), y) == WithKeyOf(t, y) + (if SameKey(x, y) then [x] else [])
    decreases |t|
  {
    if t == [] || KeyLe(t[|t| - 1], x) {
      var r := t + [x];
      assert r[..|r| - 1] == t;
    } else {
      var t', l := t[..|t| - 1], t[|t| - 1];
      InsertStable(t', x, y);
      var r := Insert(t', x) + [l];
      assert r[..|r| - 1] == Insert(t', x);
      assert !(SameKey(x, y) && SameKey(l, y));
    }
  }

  /** The sort orders by the key, keeps every note exactly as often as it
      occurs, and keeps notes of equal key in their original order. */
  lemma {:induction false} SortFacts(s: seq<NoteEvent>)
    ensures SortedByKey(SortNotes(s))
    ensures multiset(SortNotes(s)) == multiset(s)
    ensures forall y :: WithKeyOf(SortNotes(s), y) == WithKeyOf(s, y)
    decreases |s|
  {
    if s != [] {
      var s', l := s[..|s| - 1], s[|s| - 1];
      assert s == s' + [l];
      SortFacts(s');
      InsertSorted(SortNotes(s'), l);
      InsertMultiset(SortNotes(s'), l);
      forall y ensures WithKeyOf(SortNotes(s), y) == WithKeyOf(s, y) {
        InsertStable(SortNotes(s'), l, y);
      }
    }
  }

  // ------------------------------------------------------------ 3. polyphony

  /** Filter A: a note is kept when it starts after the last kept start. */
  function KeepFirsts(s: seq<NoteEvent>, lastStart: int): seq<NoteEvent>
    decreases |s|
  {
    if s == [] then []
    else if s[0].startTicks > lastStart then [s[0]] + KeepFirsts(s[1..], s[0].startTicks)
    else KeepFirsts(s[1..], lastStart)
  }

  /** Filter B: each note but the last is cut at the start of the next one. */
  function Truncated(u: seq<NoteEvent>): (p: seq<NoteEvent>)
    ensures |p| == |u| && forall i :: 0 <= i < |u| ==> p[i] == Cut(u, i)
  {
    seq(|u|, i requires 0 <= i < |u| => Cut(u, i))
  }

  /** Note `i` after filter B. */
  function Cut(u: seq<NoteEvent>, i: nat): NoteEvent
    requires i < |u|
  {
    if i + 1 < |u| then u[i].(durationTicks := Min(u[i].durationTicks, u[i + 1].startTicks - u[i].startTicks))
    else u[i]
  }

  function Min(a: int, b: int): int { if a < b then a else b }

  /** The first loop of step 3: filter A. */
  method KeepFirstsLoop(raw: seq<NoteEvent>) returns (unique: seq<NoteEvent>)
    ensures unique == KeepFirsts(raw, -1)
  {
    unique := [];
    var lastStart: int := -1;
    assert raw[0..] == raw;
    for i := 0 to |raw|
      invariant unique + KeepFirsts(raw[i..], lastStart) == KeepFirsts(raw, -1)
    {
      assert raw[i..][1..] == raw[i + 1..];
      var note := raw[i];
      if note.startTicks > lastStart {
        unique := unique + [note];
        lastStart := note.startTicks;
      }
    }
    assert raw[|raw|..] == [];
  }

  /** The second loop of step 3: filter B on a non-empty list. */
  method TruncateLoop(unique: seq<NoteEvent>) returns (processed: seq<NoteEvent>)
    requires unique != []
    ensures processed == Truncated(unique)
  {
    processed := [];
    ghost var cut := Truncated(unique);
    for i := 0 to |unique| - 1
      invariant processed == cut[..i]
    {
      var curr := unique[i];
      var nxt := unique[i + 1];
      var delta := nxt.startTicks - curr.startTicks;
      curr := curr.(durationTicks := Min(curr.durationTicks, delta));
      assert curr == cut[i];
      assert cut[..i + 1] == cut[..i] + [cut[i]];
      processed := processed + [curr];
    }
    assert unique[|unique| - 1] == cut[|unique| - 1];
    assert cut[..|unique| - 1] + [cut[|unique| - 1]] == cut;
    processed := processed + [unique[|unique| - 1]];
  }

  /** Step 3 of `load`: nothing for no notes, else both filters. */
  method HandlePolyphony(raw: seq<NoteEvent>) returns (processed: seq<NoteEvent>)
    ensures processed == Truncated(KeepFirsts(raw, -1))
  {
    processed := [];
    if raw != [] {
      var unique := KeepFirstsLoop(raw);
      KeepFirstsNonEmpty(raw, -1);
      processed := TruncateLoop(unique);
    }
  }

  lemma KeepFirstsNonEmpty(s: seq<NoteEvent>, lastStart: int)
    requires s != [] && s[0].startTicks > lastStart
    ensures KeepFirsts(s, lastStart) != []
  {
  }

  predicate StrictlyIncreasing(u: seq<NoteEvent>) {
    forall j, k :: 0 <= j < k < |u| ==> u[j].startTicks < u[k].startTicks
  }

  /** The filter keeps notes of the list, in order, with starts strictly
      increasing from `lastStart` on. */
  lemma {:induction false} KeepFirstsIncreasing(s: seq<NoteEvent>, lastStart: int)
    ensures var u := KeepFirsts(s, lastStart);
      && StrictlyIncreasing(u)
      && forall k :: 0 <= k < |u| ==> u[k] in s && u[k].startTicks > lastStart
    decreases |s|
  {
    if s != [] {
      var t := s[1..];
      var u := KeepFirsts(s, lastStart);
      assert forall x :: x in t ==> x in s;
      if s[0].startTicks > lastStart {
        KeepFirstsIncreasing(t, s[0].startTicks);
        assert u[1..] == KeepFirsts(t, s[0].startTicks);
        forall j, k | 0 <= j < k < |u| ensures u[j].startTicks < u[k].startTicks {
          assert u[k] == u[1..][k - 1];
          if j > 0 {
            assert u[j] == u[1..][j - 1];
          }
        }
        forall k | 0 <= k < |u| ensures u[k] in s && u[k].startTicks > lastStart {
          if k > 0 {
            assert u[k] == u[1..][k - 1];
          }
        }
      } else {
        KeepFirstsIncreasing(t, lastStart);
      }
    }
  }

  /** Every start after `lastStart` in the list is the start of a kept note. */
  lemma {:induction false} KeepFirstsCovers(s: seq<NoteEvent>, lastStart: int, x: NoteEvent)
    requires x in s && x.startTicks > lastStart
    requires SortedByKey(s)
    ensures exists k :: 0 <= k < |KeepFirsts(s, lastStart)| && KeepFirsts(s, lastStart)[k].startTicks == x.startTicks
    decreases |s|
  {
    var t := s[1..];
    var u := KeepFirsts(s, lastStart);
    if s[0].startTicks > lastStart {
      if x.startTicks == s[0].startTicks {
        assert u[0].startTicks == x.startTicks;
      } else {
        assert x in t;
        var i :| 0 <= i < |s| && s[i] == x;
        assert KeyLe(s[0], s[i]);
        KeepFirstsCovers(t, s[0].startTicks, x);
        assert u[1..] == KeepFirsts(t, s[0].startTicks);
        var k :| 0 <= k < |u[1..]| && u[1..][k].startTicks == x.startTicks;
        assert u[k + 1].startTicks == x.startTicks;
      }
    } else {
      assert x != s[0];
      assert x in t;
      KeepFirstsCovers(t, lastStart, x);
    }
  }

  /** Over a sorted list a kept note is the first, hence the highest, note of
      its start. */
  lemma {:induction false} KeepFirstsHighest(s: seq<NoteEvent>, lastStart: int, k: nat, x: NoteEvent)
    requires SortedByKey(s)
    requires k < |KeepFirsts(s, lastStart)| && x in s && x.startTicks == KeepFirsts(s, lastStart)[k].startTicks
    ensures x.pitch <= KeepFirsts(s, lastStart)[k].pitch
    decreases |s|
  {
    var t := s[1..];
    var u := KeepFirsts(s, lastStart);
    KeepFirstsIncreasing(s, lastStart);
    if s[0].startTicks > lastStart {
      assert u[1..] == KeepFirsts(t, s[0].startTicks);
      if k == 0 {
        if x != s[0] {
          var i :| 0 <= i < |s| && s[i] == x;
          assert KeyLe(s[0], s[i]);
        }
      } else {
        KeepFirstsIncreasing(t, s[0].startTicks);
        assert u[k] == u[1..][k - 1];
        assert u[k].startTicks > s[0].startTicks;
        assert x in t;
        KeepFirstsHighest(t, s[0].startTicks, k - 1, x);
      }
    } else {
      assert x != s[0];
      assert x in t;
      KeepFirstsHighest(t, lastStart, k, x);
    }
  }

  /** Cutting changes only durations: a duration never grows, stays positive
      where starts strictly increase, and every note ends by the next start. */
  lemma TruncatedFacts(u: seq<NoteEvent>)
    requires StrictlyIncreasing(u)
    requires forall k :: 0 <= k < |u| ==> u[k].durationTicks > 0
    ensures var p := Truncated(u);
      && (forall k :: 0 <= k < |u| ==> p[k] == u[k].(durationTicks := p[k].durationTicks))
      && (forall k :: 0 <= k < |u| ==> 0 < p[k].durationTicks <= u[k].durationTicks)
      && (forall k :: 0 <= k < |u| - 1 ==>
            p[k].durationTicks == Min(u[k].durationTicks, u[k + 1].startTicks - u[k].startTicks)
            && p[k].startTicks + p[k].durationTicks <= p[k + 1].startTicks)
      && (|u| > 0 ==> p[|u| - 1] == u[|u| - 1])
  {
    var p := Truncated(u);
    forall k | 0 <= k < |u| - 1
      ensures 0 < p[k].durationTicks <= u[k].durationTicks
      ensures p[k].startTicks + p[k].durationTicks <= p[k + 1].startTicks
    {
      assert p[k] == Cut(u, k) && p[k + 1] == Cut(u, k + 1);
      assert u[k].startTicks < u[k + 1].startTicks;
    }
  }
}
