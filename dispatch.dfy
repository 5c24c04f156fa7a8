/** The single-character notation shared by `TextParser` (src/domain/parser.py)
    and its older twin `MapeadorRegras` (src/processador.py), as pure functions
    over a value `State`. Both imperative parsers are proved to compute `Run`.

    Scanning is split in two: `Tokenize` cuts the text into the four-character
    `BPM+` command and single characters, exactly as the `while` loop of both
    parsers advances its index, and `Run` feeds the tokens to the handlers. */
module Dispatch {
  import opened Common
  import opened Config
  import opened Events
  import opened Models

  /** A letter that `random.choice('abcdefgh')` can return. */
  type NoteLetter = c: char | c in "abcdefgh" witness 'a'

  /** The injected random source: the letter drawn for the `?` read at a given
      beat. Every `?` sits on its own beat, so each draw is independent. */
  type Dice = nat -> NoteLetter

  /** The marker both parsers store in the last-note slot for "no last note". */
  const Cleared: int := -1

  /** The fields of the parsing context that the handlers read or write.
      `last == None` stands for a `last_note_midi` attribute never assigned. */
  datatype State = State(octave: int, volume: int, bpm: int, instrument: int, last: Option<int>, cursor: nat)

  /** The only failure: a vowel reads `last_note_midi` before anything set it. */
  datatype ParseError = LastNoteUnset

  /** A new state and the events appended to the list. */
  datatype Effect = Effect(state: State, out: seq<MusicalEvent>)

  /** The state a `ParsingContext` is constructed with. */
  function FromSettings(s: PlaybackSettings): (m: State)
    ensures m.octave == s.octave && m.volume == s.volume && m.bpm == s.bpm && m.instrument == s.instrumentId
    ensures m.last == None && m.cursor == 0
  {
    State(s.octave, s.volume, s.bpm, s.instrumentId, None, 0)
  }

  // ---------------------------------------------------------------- handlers

  /** `_get_nota_midi`: the table value of an (upper-cased) letter moved by
      whole octaves from octave 5, or -1 for a character not in the table. */
  function GetNotaMidi(c: char, octave: int): (p: int)
    ensures Upper(c) !in NoteBase ==> p == -1
    ensures Upper(c) in NoteBase ==> p % 12 == NoteBase[Upper(c)] % 12
    ensures Upper(c) in NoteBase && octave == 5 ==> 60 <= p <= 71 && p == NoteBase[Upper(c)]
  {
    if Upper(c) !in NoteBase then -1 else NoteBase[Upper(c)] + (octave - 5) * 12
  }

  lemma GetNotaMidiOctaveStep(c: char, octave: int)
    requires Upper(c) in NoteBase
    ensures GetNotaMidi(c, octave + 1) == GetNotaMidi(c, octave) + 12
  {
  }

  /** `_tratar_pausa`: a one-beat rest at the cursor; clears the last note. */
  function TreatRest(m: State): (r: Effect)
    ensures r.out == [Rest(m.cursor, 1.0)]
    ensures r.state == m.(last := Some(Cleared))
  {
    Effect(m.(last := Some(Cleared)), [Rest(m.cursor, 1.0)])
  }

  /** `_tratar_nota`: a one-beat note at the cursor and current volume when the
      letter's pitch is a MIDI note, which becomes the last note; a rest otherwise. */
  function TreatNote(m: State, c: char): (r: Effect)
    ensures |r.out| == 1 && r.out[0].time == m.cursor
    ensures r.state.(last := m.last) == m
    ensures r.out[0].Note? <==> 0 <= GetNotaMidi(c, m.octave) <= MaxMidiValue
    ensures r.out[0].Note? ==>
      r.out[0] == Note(m.cursor, GetNotaMidi(c, m.octave), m.volume, 1.0) && r.state.last == Some(r.out[0].pitch)
    ensures !r.out[0].Note? ==> r == TreatRest(m)
  {
    var p := GetNotaMidi(c, m.octave);
    if 0 <= p <= MaxMidiValue then Effect(m.(last := Some(p)), [Note(m.cursor, p, m.volume, 1.0)])
    else TreatRest(m)
  }

  /** `_tratar_volume`: doubles the volume up to the MIDI maximum; no event. */
  function TreatVolume(m: State): (r: Effect)
    ensures r.out == []
    ensures r.state == m.(volume := r.state.volume, last := Some(Cleared))
    ensures r.state.volume <= MaxMidiValue
    ensures 0 <= m.volume <= MaxMidiValue ==> m.volume <= r.state.volume <= MaxMidiValue
    ensures r.state.volume == MaxMidiValue || r.state.volume == 2 * m.volume
    ensures 2 * m.volume < MaxMidiValue ==> r.state.volume == 2 * m.volume
    ensures 2 * m.volume >= MaxMidiValue ==> r.state.volume == MaxMidiValue
  {
    Effect(m.(volume := if m.volume * 2 < MaxMidiValue then m.volume * 2 else MaxMidiValue, last := Some(Cleared)), [])
  }

  /** `_tratar_oitava`: `+` raises the octave up to 10, `-` lowers it down to 1. */
  function TreatOctave(m: State, c: char): (r: Effect)
    ensures r.out == []
    ensures r.state == m.(octave := r.state.octave, last := Some(Cleared))
    ensures c == '+' ==> r.state.octave <= 10 && (m.octave < 10 ==> r.state.octave == m.octave + 1)
    ensures c != '+' ==> r.state.octave >= 1 && (m.octave > 1 ==> r.state.octave == m.octave - 1)
    ensures c == '+' && m.octave >= 10 ==> r.state.octave == 10
    ensures c != '+' && m.octave <= 1 ==> r.state.octave == 1
    ensures 1 <= m.octave <= 10 ==> 1 <= r.state.octave <= 10
  {
    var o := if c == '+' then (if m.octave + 1 < 10 then m.octave + 1 else 10)
             else (if m.octave - 1 > 1 then m.octave - 1 else 1);
    Effect(m.(octave := o, last := Some(Cleared)), [])
  }

  /** `_tratar_vogal`: repeats the last note at the current volume; with the
      marker it plays middle C on the telephone program at volume 100 instead;
      with the attribute never assigned the read fails. */
  function TreatVowel(m: State): (r: Result<Effect, ParseError>)
    ensures r.Failure? <==> m.last == None
    ensures r.Success? ==> |r.value.out| == 1 && r.value.out[0].time == m.cursor && r.value.state == m
    ensures r.Success? && m.last.value != Cleared ==>
      r.value.out[0] == Note(m.cursor, m.last.value, m.volume, 1.0)
    ensures r.Success? && m.last.value == Cleared ==>
      r.value.out[0] == SpecificNote(m.cursor, TelephoneProgram, 60, 100, 1.0)
  {
    match m.last
    case None => Failure(LastNoteUnset)
    case Some(p) =>
      if p != Cleared then Success(Effect(m, [Note(m.cursor, p, m.volume, 1.0)]))
      else Success(Effect(m.(last := Some(Cleared)), [SpecificNote(m.cursor, TelephoneProgram, GetNotaMidi('c', 5), 100, 1.0)]))
  }

  /** `_tratar_aleatorio`: the drawn letter is treated as a literal note. */
  function TreatRandom(m: State, pick: NoteLetter): (r: Effect)
    ensures r == TreatNote(m, pick)
  {
    TreatNote(m, pick)
  }

  /** Position of the first occurrence of `x` in `s`, or -1 (`list.index`
      raising `ValueError`). */
  function IndexOf(s: seq<int>, x: int): (k: int)
    ensures -1 <= k < |s|
    ensures k >= 0 ==> s[k] == x && forall j :: 0 <= j < k ==> s[j] != x
    ensures k == -1 ==> x !in s
  {
    if s == [] then -1
    else if s[0] == x then 0
    else var k := IndexOf(s[1..], x); if k == -1 then -1 else k + 1
  }

  /** The id after `id` in `ids`, cyclically; the first id when `id` is not
      in `ids` (`idx_novo = 0` on `ValueError`). */
  function NextIn(ids: seq<int>, id: int): (r: int)
    requires |ids| > 0
  {
    var k := IndexOf(ids, id);
    if k >= 0 then ids[(k + 1) % |ids|] else ids[0]
  }

  /** The newline rule over the instrument table. */
  function NextInstrument(id: int): (r: int)
    ensures r in InstrumentIds
    ensures id !in InstrumentIds ==> r == InstrumentIds[0]
  {
    NextIn(InstrumentIds, id)
  }

  predicate Distinct(ids: seq<int>) {
    forall j, k :: 0 <= j < k < |ids| ==> ids[j] != ids[k]
  }

  /** In a table of distinct ids the position found for `ids[k]` is `k`. */
  lemma IndexOfDistinct(ids: seq<int>, k: nat)
    requires Distinct(ids) && k < |ids|
    ensures IndexOf(ids, ids[k]) == k
  {
  }

  /** `_tratar_troca_instrumento`: moves to the next table instrument. */
  function TreatInstrumentChange(m: State): (r: Effect)
    ensures r.out == [Instrument(m.cursor, r.state.instrument)]
    ensures r.state == m.(instrument := NextInstrument(m.instrument), last := Some(Cleared))
    ensures r.state.instrument in InstrumentIds
  {
    var next := NextInstrument(m.instrument);
    Effect(m.(instrument := next, last := Some(Cleared)), [Instrument(m.cursor, next)])
  }

  /** `_tratar_bpm_mais`: eighty beats per minute faster, announced at the cursor. */
  function TreatBpmPlus(m: State): (r: Effect)
    ensures r.state == m.(bpm := m.bpm + 80)
    ensures r.out == [Tempo(m.cursor, r.state.bpm)]
  {
    Effect(m.(bpm := m.bpm + 80), [Tempo(m.cursor, m.bpm + 80)])
  }

  /** Characters whose handler assigns the last-note slot. */
  predicate Remembers(c: char) {
    Lower(c) in "abcdefgh" || c == ' ' || c == '+' || c == '-' || c == '?' || c == '\n' || c == ';'
  }

  predicate IsVowel(c: char) {
    !(Lower(c) in "abcdefgh") && Lower(c) in "oiu"
  }

  /** `_processar_caractere`: the dispatch on one character, in the source's
      order of tests. Any other character leaves the state alone. */
  function ProcessChar(m: State, c: char, pick: NoteLetter): (r: Result<Effect, ParseError>)
    ensures r.Failure? <==> IsVowel(c) && m.last == None
    ensures r.Success? ==> |r.value.out| <= 1 && r.value.state.cursor == m.cursor
    ensures r.Success? ==> forall k :: 0 <= k < |r.value.out| ==> r.value.out[k].time == m.cursor
    ensures r.Success? && Remembers(c) ==> r.value.state.last.Some?
    ensures r.Success? && !Remembers(c) ==> r.value.state.last == m.last
    ensures !Remembers(c) && !IsVowel(c) ==> r == Success(Effect(m, []))
  {
    var lc := Lower(c);
    if lc in "abcdefgh" then Success(TreatNote(m, c))
    else if c == ' ' then Success(TreatVolume(m))
    else if c == '+' || c == '-' then Success(TreatOctave(m, c))
    else if lc in "oiu" then TreatVowel(m)
    else if c == '?' then Success(TreatRandom(m, pick))
    else if c == '\n' then Success(TreatInstrumentChange(m))
    else if c == ';' then Success(TreatRest(m))
    else Success(Effect(m, []))
  }

  // ---------------------------------------------------------------- scanning

  datatype Token = BpmPlus | Single(c: char)

  /** The test `texto[i : i + 4].upper() == 'BPM+'` with `i + 3 < len(texto)`. */
  predicate StartsWithBpmPlus(s: string) {
    |s| >= 4 && Upper(s[0]) == 'B' && Upper(s[1]) == 'P' && Upper(s[2]) == 'M' && Upper(s[3]) == '+'
  }

  /** How the parsing loop advances its index: by four over `BPM+` (checked
      first, in any letter case), by one over every other character. */
  function Tokenize(s: string): seq<Token>
    decreases |s|
  {
    if s == [] then []
    else if StartsWithBpmPlus(s) then [BpmPlus] + Tokenize(s[4..])
    else [Single(s[0])] + Tokenize(s[1..])
  }

  function Singles(ts: seq<Token>): nat {
    if ts == [] then 0 else (if ts[0].Single? then 1 else 0) + Singles(ts[1..])
  }

  function BpmPluses(ts: seq<Token>): nat {
    if ts == [] then 0 else (if ts[0].BpmPlus? then 1 else 0) + BpmPluses(ts[1..])
  }

  /** One turn of the loop: the `BPM+` handler, or a character handler
      followed by one beat of cursor. */
  function Step(m: State, t: Token, dice: Dice): (r: Result<Effect, ParseError>)
    ensures t.BpmPlus? ==> r == Success(TreatBpmPlus(m))
  {
    match t
    case BpmPlus => Success(TreatBpmPlus(m))
    case Single(c) =>
      match ProcessChar(m, c, dice(m.cursor))
      case Failure(e) => Failure(e)
      case Success(eff) => Success(Effect(eff.state.(cursor := m.cursor + 1), eff.out))
  }

  /** Feeds the tokens in order, appending to `acc`; stops at the first failure. */
  function Run(ts: seq<Token>, m: State, acc: seq<MusicalEvent>, dice: Dice): Result<Effect, ParseError>
    decreases |ts|
  {
    if ts == [] then Success(Effect(m, acc))
    else
      match Step(m, ts[0], dice)
      case Failure(e) => Failure(e)
      case Success(eff) => Run(ts[1..], eff.state, acc + eff.out, dice)
  }

  /** `_inicializar_eventos`: the tempo and then the instrument at the cursor. */
  function Preamble(m: State): (es: seq<MusicalEvent>)
    ensures es == [Tempo(m.cursor, m.bpm), Instrument(m.cursor, m.instrument)]
  {
    [Tempo(m.cursor, m.bpm), Instrument(m.cursor, m.instrument)]
  }

  /** What a whole parse loop computes from a starting state. */
  function Interpret(text: string, m: State, dice: Dice): Result<Effect, ParseError> {
    Run(Tokenize(text), m, Preamble(m), dice)
  }

  /** Characters that the dispatch ignores except for spending a beat. */
  predicate Unmatched(c: char) {
    !Remembers(c) && !IsVowel(c)
  }

  // ---------------------------------------------------------------- lemmas

  /** Tokenization accounts for every character: a single character is one
      character, a `BPM+` four; so there are never more tokens than characters. */
  lemma {:induction false} TokenizeCovers(s: string)
    ensures Singles(Tokenize(s)) + 4 * BpmPluses(Tokenize(s)) == |s|
    ensures |Tokenize(s)| <= |s|
    decreases |s|
  {
    if s != [] {
      var ts := Tokenize(s);
      if StartsWithBpmPlus(s) {
        TokenizeCovers(s[4..]);
        assert ts[1..] == Tokenize(s[4..]);
      } else {
        TokenizeCovers(s[1..]);
        assert ts[1..] == Tokenize(s[1..]);
      }
    }
  }

  /** The text at `i` starts with `BPM+` exactly when at least four characters
      remain and they spell it in any case; then the next token is `BPM+`. */
  lemma TokenizeAt(text: string, i: nat)
    requires i < |text|
    ensures StartsWithBpmPlus(text[i..]) ==> Tokenize(text[i..]) == [BpmPlus] + Tokenize(text[i + 4..])
    ensures !StartsWithBpmPlus(text[i..]) ==> Tokenize(text[i..]) == [Single(text[i])] + Tokenize(text[i + 1..])
  {
    if StartsWithBpmPlus(text[i..]) {
      assert text[i..][4..] == text[i + 4..];
    } else {
      assert text[i..][1..] == text[i + 1..];
    }
  }

  /** Running two token lists one after the other is running their concatenation. */
  lemma {:induction false} RunAppend(t1: seq<Token>, t2: seq<Token>, m: State, acc: seq<MusicalEvent>, dice: Dice)
    ensures Run(t1 + t2, m, acc, dice) ==
      match Run(t1, m, acc, dice)
      case Failure(e) => Failure(e)
      case Success(o) => Run(t2, o.state, o.out, dice)
    decreases |t1|
  {
    if t1 == [] {
      assert t1 + t2 == t2;
    } else {
      assert (t1 + t2)[0] == t1[0];
      assert (t1 + t2)[1..] == t1[1..] + t2;
      match Step(m, t1[0], dice)
      case Failure(e) =>
      case Success(eff) => RunAppend(t1[1..], t2, eff.state, acc + eff.out, dice);
    }
  }

  /** One token at the head of a list: its step, then the rest. */
  lemma RunHead(t: Token, rest: seq<Token>, m: State, acc: seq<MusicalEvent>, dice: Dice)
    ensures Step(m, t, dice).Failure? ==> Run([t] + rest, m, acc, dice) == Failure(Step(m, t, dice).error)
    ensures Step(m, t, dice).Success? ==>
      Run([t] + rest, m, acc, dice) == Run(rest, Step(m, t, dice).value.state, acc + Step(m, t, dice).value.out, dice)
  {
    assert ([t] + rest)[0] == t;
    assert ([t] + rest)[1..] == rest;
  }

  /** A single character at the head of a list: its handler, one beat, then the rest. */
  lemma RunSingleHead(c: char, rest: seq<Token>, m: State, acc: seq<MusicalEvent>, dice: Dice)
    ensures var t := ProcessChar(m, c, dice(m.cursor));
      && (t.Failure? ==> Run([Single(c)] + rest, m, acc, dice) == Failure(t.error))
      && (t.Success? ==>
            Run([Single(c)] + rest, m, acc, dice) == Run(rest, t.value.state.(cursor := m.cursor + 1), acc + t.value.out, dice))
  {
    var t := ProcessChar(m, c, dice(m.cursor));
    assert ([Single(c)] + rest)[0] == Single(c);
    assert ([Single(c)] + rest)[1..] == rest;
    if t.Failure? {
      assert Step(m, Single(c), dice) == Failure(t.error);
    } else {
      assert Step(m, Single(c), dice) == Success(Effect(t.value.state.(cursor := m.cursor + 1), t.value.out));
    }
  }

  /** The list only grows at its end, by at most one event per token; the
      cursor advances by one beat per single character and the tempo by 80
      per `BPM+`. */
  lemma {:induction false} RunExtends(ts: seq<Token>, m: State, acc: seq<MusicalEvent>, dice: Dice)
    requires Run(ts, m, acc, dice).Success?
    ensures var o := Run(ts, m, acc, dice).value;
      && acc <= o.out
      && |o.out| <= |acc| + |ts|
      && o.state.cursor == m.cursor + Singles(ts)
      && o.state.bpm == m.bpm + 80 * BpmPluses(ts)
      && o.state.volume <= (if m.volume <= MaxMidiValue then MaxMidiValue else m.volume)
    decreases |ts|
  {
    if ts != [] {
      var eff := Step(m, ts[0], dice).value;
      RunExtends(ts[1..], eff.state, acc + eff.out, dice);
    }
  }

  /** Beat positions never decrease: every event a token appends sits at the
      cursor, which only moves forward. */
  lemma {:induction false} RunTimesOrdered(ts: seq<Token>, m: State, acc: seq<MusicalEvent>, dice: Dice)
    requires Run(ts, m, acc, dice).Success?
    requires TimesOrdered(acc) && TimesAtMost(acc, m.cursor)
    ensures var o := Run(ts, m, acc, dice).value;
      && TimesOrdered(o.out)
      && TimesAtMost(o.out, o.state.cursor)
      && forall k :: |acc| <= k < |o.out| ==> m.cursor <= o.out[k].time
    decreases |ts|
  {
    if ts != [] {
      var eff := Step(m, ts[0], dice).value;
      var acc' := acc + eff.out;
      assert forall k :: 0 <= k < |eff.out| ==> eff.out[k].time == m.cursor;
      assert TimesOrdered(acc');
      RunTimesOrdered(ts[1..], eff.state, acc', dice);
      RunExtends(ts[1..], eff.state, acc', dice);
      var o := Run(ts, m, acc, dice).value;
      forall k | |acc| <= k < |o.out| ensures m.cursor <= o.out[k].time {
        if k < |acc'| {
          assert o.out[k] == acc'[k];
        }
      }
    }
  }

  /** A successful run passes through every prefix of its tokens: the prefix
      succeeds, its events begin the final list, and the rest of the tokens
      continue from where it stopped. */
  lemma RunPrefix(ts: seq<Token>, m: State, acc: seq<MusicalEvent>, dice: Dice, j: nat)
    requires Run(ts, m, acc, dice).Success? && j <= |ts|
    ensures Run(ts[..j], m, acc, dice).Success?
    ensures var p := Run(ts[..j], m, acc, dice).value;
      && p.out <= Run(ts, m, acc, dice).value.out
      && Run(ts[j..], p.state, p.out, dice) == Run(ts, m, acc, dice)
  {
    assert ts[..j] + ts[j..] == ts;
    RunAppend(ts[..j], ts[j..], m, acc, dice);
    var p := Run(ts[..j], m, acc, dice).value;
    RunExtends(ts[j..], p.state, p.out, dice);
  }

  /** Event `k` of a walk over `ts` lies among those that token `j` appended:
      after the events of the tokens before it, before those of the tokens after. */
  predicate AppendedBy(ts: seq<Token>, m: State, acc: seq<MusicalEvent>, dice: Dice, j: nat, k: nat) {
    && j < |ts| && Run(ts[..j], m, acc, dice).Success? && Run(ts[..j + 1], m, acc, dice).Success?
    && |Run(ts[..j], m, acc, dice).value.out| <= k < |Run(ts[..j + 1], m, acc, dice).value.out|
  }

  /** Token `j` appends its events right after those of the tokens before it,
      all at the beat that counts the single characters before it. */
  lemma RunTokenTimes(ts: seq<Token>, m: State, acc: seq<MusicalEvent>, dice: Dice, j: nat)
    requires Run(ts, m, acc, dice).Success? && j < |ts|
    ensures Run(ts[..j], m, acc, dice).Success? && Run(ts[..j + 1], m, acc, dice).Success?
    ensures var o1, o2 := Run(ts[..j], m, acc, dice).value, Run(ts[..j + 1], m, acc, dice).value;
      o1.out <= o2.out && o2.out <= Run(ts, m, acc, dice).value.out
    ensures forall k: nat :: AppendedBy(ts, m, acc, dice, j, k) ==>
      Run(ts, m, acc, dice).value.out[k].time == m.cursor + Singles(ts[..j])
  {
    RunPrefix(ts, m, acc, dice, j);
    RunPrefix(ts, m, acc, dice, j + 1);
    var o := Run(ts, m, acc, dice).value;
    var o1 := Run(ts[..j], m, acc, dice).value;
    var o2 := Run(ts[..j + 1], m, acc, dice).value;
    RunExtends(ts[..j], m, acc, dice);
    assert ts[..j + 1] == ts[..j] + [ts[j]];
    RunAppend(ts[..j], [ts[j]], m, acc, dice);
    RunHead(ts[j], [], o1.state, o1.out, dice);
    assert [ts[j]] + [] == [ts[j]];
    var eff := Step(o1.state, ts[j], dice).value;
    assert o2.out == o1.out + eff.out;
    assert forall i :: 0 <= i < |eff.out| ==> eff.out[i].time == o1.state.cursor;
    forall k: nat | AppendedBy(ts, m, acc, dice, j, k)
      ensures o.out[k].time == m.cursor + Singles(ts[..j])
    {
      assert o.out[k] == o2.out[k] == eff.out[k - |o1.out|];
    }
  }

  /** Every appended event was appended by some token. */
  lemma {:induction false} RunSegmentsCover(ts: seq<Token>, m: State, acc: seq<MusicalEvent>, dice: Dice, k: nat)
    requires Run(ts, m, acc, dice).Success?
    requires |acc| <= k < |Run(ts, m, acc, dice).value.out|
    ensures exists j: nat :: AppendedBy(ts, m, acc, dice, j, k)
    decreases |ts|
  {
    var n := |ts|;
    if n == 0 {
      assert false;
    }
    assert ts[..n] == ts;
    RunPrefix(ts, m, acc, dice, n - 1);
    var ts' := ts[..n - 1];
    if k >= |Run(ts', m, acc, dice).value.out| {
      assert Run(ts[..n - 1 + 1], m, acc, dice) == Run(ts, m, acc, dice);
      assert AppendedBy(ts, m, acc, dice, n - 1, k);
    } else {
      RunSegmentsCover(ts', m, acc, dice, k);
      var j: nat :| AppendedBy(ts', m, acc, dice, j, k);
      assert ts'[..j] == ts[..j] && ts'[..j + 1] == ts[..j + 1];
      assert AppendedBy(ts, m, acc, dice, j, k);
    }
  }

  /** Event `k` of a walk was appended by some token `j`, at the number of
      single characters before that token. */
  predicate TimedByToken(ts: seq<Token>, m: State, acc: seq<MusicalEvent>, dice: Dice, k: nat)
    requires Run(ts, m, acc, dice).Success? && k < |Run(ts, m, acc, dice).value.out|
  {
    exists j: nat ::
      j < |ts| && AppendedBy(ts, m, acc, dice, j, k) && Run(ts, m, acc, dice).value.out[k].time == m.cursor + Singles(ts[..j])
  }

  lemma RunEventOrigin(ts: seq<Token>, m: State, acc: seq<MusicalEvent>, dice: Dice, k: nat)
    requires Run(ts, m, acc, dice).Success?
    requires |acc| <= k < |Run(ts, m, acc, dice).value.out|
    ensures TimedByToken(ts, m, acc, dice, k)
  {
    RunSegmentsCover(ts, m, acc, dice, k);
    var j: nat :| AppendedBy(ts, m, acc, dice, j, k);
    RunTokenTimes(ts, m, acc, dice, j);
  }

  /** Each appended event was appended by one token `j`, and sits at the
      number of single characters read before that token. */
  lemma RunTimesAreBeatCounts(ts: seq<Token>, m: State, acc: seq<MusicalEvent>, dice: Dice)
    requires Run(ts, m, acc, dice).Success?
    ensures forall k: nat :: |acc| <= k < |Run(ts, m, acc, dice).value.out| ==> TimedByToken(ts, m, acc, dice, k)
  {
    forall k: nat | |acc| <= k < |Run(ts, m, acc, dice).value.out| {
      RunEventOrigin(ts, m, acc, dice, k);
    }
  }

  /** A note, specific note or rest the dispatch can emit. */
  predicate Sound(e: MusicalEvent) {
    match e
    case Note(_, p, v, d) => 0 <= p <= MaxMidiValue && 0 <= v <= MaxMidiValue && d == 1.0
    case SpecificNote(_, i, p, v, d) => i == TelephoneProgram && p == 60 && v == 100 && d == 1.0
    case Rest(_, d) => d == 1.0
    case _ => true
  }

  predicate LastValid(l: Option<int>) {
    l.None? || l.value == Cleared || 0 <= l.value <= MaxMidiValue
  }

  /** With a volume in MIDI range, every note has a MIDI pitch and volume and
      lasts one beat: out-of-range letters become rests, and a repeated note
      is one that passed the range test. */
  lemma {:induction false} RunSound(ts: seq<Token>, m: State, acc: seq<MusicalEvent>, dice: Dice)
    requires Run(ts, m, acc, dice).Success?
    requires 0 <= m.volume <= MaxMidiValue && LastValid(m.last)
    requires forall k :: 0 <= k < |acc| ==> Sound(acc[k])
    ensures var o := Run(ts, m, acc, dice).value;
      && (forall k :: 0 <= k < |o.out| ==> Sound(o.out[k]))
      && 0 <= o.state.volume <= MaxMidiValue && LastValid(o.state.last)
    decreases |ts|
  {
    if ts != [] {
      var eff := Step(m, ts[0], dice).value;
      var acc' := acc + eff.out;
      if ts[0].Single? && Lower(ts[0].c) in "oiu" && !(Lower(ts[0].c) in "abcdefgh") {
        assert m.last.Some?;
      }
      assert forall k :: 0 <= k < |acc'| ==> Sound(acc'[k]);
      RunSound(ts[1..], eff.state, acc', dice);
    }
  }

  /** The octave stays within 1..10 once it starts there; any instrument event
      after the preamble names a table instrument, and an instrument from the
      table stays in the table. */
  lemma {:induction false} RunStateBounds(ts: seq<Token>, m: State, acc: seq<MusicalEvent>, dice: Dice)
    requires Run(ts, m, acc, dice).Success?
    ensures var o := Run(ts, m, acc, dice).value;
      && (1 <= m.octave <= 10 ==> 1 <= o.state.octave <= 10)
      && (m.instrument in InstrumentIds ==> o.state.instrument in InstrumentIds)
      && forall k :: |acc| <= k < |o.out| && o.out[k].Instrument? ==> o.out[k].instrumentId in InstrumentIds
    decreases |ts|
  {
    if ts != [] {
      var eff := Step(m, ts[0], dice).value;
      var acc' := acc + eff.out;
      RunStateBounds(ts[1..], eff.state, acc', dice);
      RunExtends(ts[1..], eff.state, acc', dice);
      var o := Run(ts, m, acc, dice).value;
      forall k | |acc| <= k < |o.out| && o.out[k].Instrument?
        ensures o.out[k].instrumentId in InstrumentIds
      {
        if k < |acc'| {
          assert o.out[k] == eff.out[k - |acc|];
        }
      }
    }
  }

  /** Once the last-note slot holds a value (the marker included), no read of
      it can fail, and it keeps holding one. */
  lemma {:induction false} RunNeverFails(ts: seq<Token>, m: State, acc: seq<MusicalEvent>, dice: Dice)
    requires m.last.Some?
    ensures Run(ts, m, acc, dice).Success?
    ensures Run(ts, m, acc, dice).value.state.last.Some?
    decreases |ts|
  {
    if ts != [] {
      var eff := Step(m, ts[0], dice).value;
      RunNeverFails(ts[1..], eff.state, acc + eff.out, dice);
    }
  }

  /** A vowel that comes before every character assigning the last note. */
  predicate VowelFirst(ts: seq<Token>) {
    exists j :: 0 <= j < |ts| && ts[j].Single? && IsVowel(ts[j].c) &&
      forall k :: 0 <= k < j ==> !(ts[k].Single? && Remembers(ts[k].c))
  }

  /** Starting with the attribute unassigned, the run fails exactly when a
      vowel precedes every note, space, `+`, `-`, `?`, newline and `;`. */
  lemma {:induction false} RunFailsIff(ts: seq<Token>, m: State, acc: seq<MusicalEvent>, dice: Dice)
    requires m.last == None
    ensures Run(ts, m, acc, dice).Failure? <==> VowelFirst(ts)
    decreases |ts|
  {
    if ts == [] {
    } else if ts[0].Single? && IsVowel(ts[0].c) {
      assert Step(m, ts[0], dice).Failure?;
      assert VowelFirst(ts) by {
        assert 0 < |ts| && ts[0].Single? && IsVowel(ts[0].c);
      }
    } else if ts[0].Single? && Remembers(ts[0].c) {
      var eff := Step(m, ts[0], dice).value;
      RunNeverFails(ts[1..], eff.state, acc + eff.out, dice);
      forall j | 0 <= j < |ts| && ts[j].Single? && IsVowel(ts[j].c)
        ensures exists k :: 0 <= k < j && ts[k].Single? && Remembers(ts[k].c)
      {
        assert j != 0;
        assert 0 < j && ts[0].Single? && Remembers(ts[0].c);
      }
    } else {
      var eff := Step(m, ts[0], dice).value;
      assert eff.state.last == None;
      RunFailsIff(ts[1..], eff.state, acc + eff.out, dice);
      if VowelFirst(ts[1..]) {
        var j :| 0 <= j < |ts[1..]| && ts[1..][j].Single? && IsVowel(ts[1..][j].c) &&
          forall k :: 0 <= k < j ==> !(ts[1..][k].Single? && Remembers(ts[1..][k].c));
        assert ts[j + 1] == ts[1..][j];
        assert forall k :: 0 <= k < j + 1 ==> !(ts[k].Single? && Remembers(ts[k].c)) by {
          forall k | 0 <= k < j + 1 ensures !(ts[k].Single? && Remembers(ts[k].c)) {
            if k > 0 { assert ts[k] == ts[1..][k - 1]; }
          }
        }
      }
      if VowelFirst(ts) {
        var j :| 0 <= j < |ts| && ts[j].Single? && IsVowel(ts[j].c) &&
          forall k :: 0 <= k < j ==> !(ts[k].Single? && Remembers(ts[k].c));
        assert j != 0;
        assert ts[1..][j - 1] == ts[j];
        assert forall k :: 0 <= k < j - 1 ==> !(ts[1..][k].Single? && Remembers(ts[1..][k].c)) by {
          forall k | 0 <= k < j - 1 ensures !(ts[1..][k].Single? && Remembers(ts[1..][k].c)) {
            assert ts[1..][k] == ts[k + 1];
          }
        }
        assert VowelFirst(ts[1..]);
      }
    }
  }

  /** A token that is not a vowel does the same thing whatever the last-note
      slot holds, except that a token not assigning the slot keeps it. */
  lemma StepIgnoresLast(m: State, t: Token, dice: Dice, x: Option<int>, y: Option<int>)
    requires !(t.Single? && IsVowel(t.c))
    ensures Step(m.(last := x), t, dice).Success? && Step(m.(last := y), t, dice).Success?
    ensures var ex, ey := Step(m.(last := x), t, dice).value, Step(m.(last := y), t, dice).value;
      && ex.out == ey.out
      && ex.state.(last := ey.state.last) == ey.state
      && (t.Single? && Remembers(t.c) ==> ex.state == ey.state)
      && (!(t.Single? && Remembers(t.c)) ==> ex.state.last == x)
  {
  }

  /** Wherever the unassigned attribute does not make `parser.py` fail, the
      `processador.py` start with the marker produces the very same events
      and the same final state but for the slot. */
  lemma {:induction false} UnsetAgreesWithCleared(ts: seq<Token>, m: State, acc: seq<MusicalEvent>, dice: Dice)
    requires Run(ts, m.(last := None), acc, dice).Success?
    ensures Run(ts, m.(last := Some(Cleared)), acc, dice).Success?
    ensures var o, o' := Run(ts, m.(last := None), acc, dice).value, Run(ts, m.(last := Some(Cleared)), acc, dice).value;
      o'.out == o.out && o'.state.(last := o.state.last) == o.state
    decreases |ts|
  {
    if ts != [] {
      var m1, m2 := m.(last := None), m.(last := Some(Cleared));
      if !(ts[0].Single? && IsVowel(ts[0].c)) {
        StepIgnoresLast(m, ts[0], dice, None, Some(Cleared));
        var e1, e2 := Step(m1, ts[0], dice).value, Step(m2, ts[0], dice).value;
        if ts[0].Single? && Remembers(ts[0].c) {
          assert e1.state == e2.state;
        } else {
          assert e1.state == e1.state.(last := None);
          assert e2.state == e1.state.(last := Some(Cleared));
          UnsetAgreesWithCleared(ts[1..], e1.state, acc + e1.out, dice);
        }
      }
    }
  }

  /** `n` newline rules in a row over `ids`, starting from instrument `id`. */
  function Cycle(ids: seq<int>, id: int, n: nat): int
    requires |ids| > 0
  {
    if n == 0 then id else NextIn(ids, Cycle(ids, id, n - 1))
  }

  /** Over distinct ids the newline rule moves to the following table entry... */
  lemma NextAt(ids: seq<int>, j: nat)
    requires Distinct(ids) && j + 1 < |ids|
    ensures NextIn(ids, ids[j]) == ids[j + 1]
  {
    IndexOfDistinct(ids, j);
    ModUnique(j + 1, |ids|, 0, j + 1);
  }

  /** ... and from the last entry wraps round to the first. */
  lemma NextAtLast(ids: seq<int>)
    requires Distinct(ids) && |ids| > 0
    ensures NextIn(ids, ids[|ids| - 1]) == ids[0]
  {
    IndexOfDistinct(ids, |ids| - 1);
    ModUnique(|ids|, |ids|, 1, 0);
  }

  /** `a + b` newline rules are `a` of them followed by `b` more. */
  lemma {:induction false} CycleAdds(ids: seq<int>, id: int, a: nat, b: nat)
    requires |ids| > 0
    ensures Cycle(ids, id, a + b) == Cycle(ids, Cycle(ids, id, a), b)
    decreases b
  {
    if b > 0 {
      CycleAdds(ids, id, a, b - 1);
    }
  }

  /** Before the end of the table, `n` newline rules walk `n` entries forward. */
  lemma {:induction false} CycleWalksTable(ids: seq<int>, k: nat, n: nat)
    requires Distinct(ids) && k + n < |ids|
    ensures Cycle(ids, ids[k], n) == ids[k + n]
  {
    if n > 0 {
      CycleWalksTable(ids, k, n - 1);
      NextAt(ids, k + n - 1);
    }
  }

  /** A full round of newline rules brings a table id back to itself. */
  lemma CycleRound(ids: seq<int>, k: nat)
    requires Distinct(ids) && k < |ids|
    ensures Cycle(ids, ids[k], |ids|) == ids[k]
  {
    var last: nat := |ids| - 1;
    var a: nat, b: nat := last - k, k + 1;
    CycleWalksTable(ids, k, a);
    assert k + a == last;
    var x := Cycle(ids, ids[k], a);
    assert x == ids[last];
    NextAtLast(ids);
    var y := Cycle(ids, ids[last], 1);
    assert y == NextIn(ids, Cycle(ids, ids[last], 0));
    CycleWalksTable(ids, 0, k);
    calc {
      Cycle(ids, ids[k], |ids|);
      { assert |ids| == a + b; }
      Cycle(ids, ids[k], a + b);
      { CycleAdds(ids, ids[k], a, b); }
      Cycle(ids, x, b);
      { assert b == 1 + k; }
      Cycle(ids, ids[last], 1 + k);
      { CycleAdds(ids, ids[last], 1, k); }
      Cycle(ids, y, k);
    }
  }

  /** Thirteen newlines bring a table instrument back to itself. */
  lemma CycleReturns(id: int)
    requires id in InstrumentIds
    ensures Cycle(InstrumentIds, id, |InstrumentIds|) == id
  {
    InstrumentTableShape();
    CycleRound(InstrumentIds, IndexOf(InstrumentIds, id));
  }

  lemma MulAtLeast(a: int, n: int)
    requires a >= 1 && n > 0
    ensures a * n >= n
  {
  }

  lemma ModUnique(x: int, n: int, q: int, r: int)
    requires n > 0 && 0 <= r < n && x == q * n + r
    ensures x % n == r
  {
    var q', r' := x / n, x % n;
    assert x == q' * n + r';
    assert (q - q') * n == r' - r;
    if q > q' {
      MulAtLeast(q - q', n);
    } else if q < q' {
      MulAtLeast(q' - q, n);
    }
  }

  /** An unmatched character only spends a beat. */
  lemma UnmatchedOnlyAdvances(m: State, c: char, dice: Dice)
    requires Unmatched(c)
    ensures Step(m, Single(c), dice) == Success(Effect(m.(cursor := m.cursor + 1), []))
  {
  }
}
