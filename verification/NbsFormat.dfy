/** The bytes of an NBS song: what the generator prints
    (minecraft-audio/monkeycraft-lobby/generate_lobby_track.py) and what the radio parses
    (NbsReader.java), as functions. */
module NbsFormat {
  import opened Optional

  type Byte = x: int | 0 <= x < 256

  const TICKS_PER_SECOND := 10
  const DURATION_SECONDS := 15 * 60
  const LENGTH_TICKS := TICKS_PER_SECOND * DURATION_SECONDS
  const LAYERS := 10
  const MAX_STRING := 1_048_576

  datatype Instrument = Harp | Bass | Drum | Snare | Hat | Lute | Flute | Bell | Chime | Strings

  datatype Note = Note(start: real, pitch: int, instrument: Instrument, velocity: real, pan: real)

  datatype Header = Header(title: seq<Byte>, author: seq<Byte>, description: seq<Byte>)

  // ---------------------------------------------------------------- arithmetic of the writer

  /** Python's `round`: to the nearest integer, ties to the even one. */
  function Round(x: real): int {
    var below := x.Floor;
    var part := x - below as real;
    if part < 0.5 || (part == 0.5 && below % 2 == 0) then below else below + 1
  }

  function Clamp(lo: int, hi: int, x: int): int {
    if x < lo then lo else if x > hi then hi else x
  }

  function TickOf(n: Note): int {
    var t := Round(n.start * TICKS_PER_SECOND as real);
    if t < LENGTH_TICKS - 1 then t else LENGTH_TICKS - 1
  }

  lemma TickIsNatural(n: Note)
    requires n.start >= 0.0
    ensures 0 <= TickOf(n) < LENGTH_TICKS
  {
    assert n.start * TICKS_PER_SECOND as real >= 0.0;
  }

  function Velocity(n: Note): Byte {
    Clamp(1, 100, Round(n.velocity * 180.0))
  }

  function Panning(n: Note): Byte {
    Clamp(0, 200, Round(100.0 + n.pan * 80.0))
  }

  /** The key, folded by octaves into the two octaves of a note block: an octave that is not needed is not
      taken. */
  function Key(n: Note): (k: int)
    ensures var piano := if n.pitch < 21 then 0 else if n.pitch > 108 then 87 else n.pitch - 21;
            && (k - piano) % 12 == 0
            && (if piano < 33 then 33 <= k < 45 else if piano > 57 then 45 < k <= 57 else k == piano)
    ensures 33 <= k <= 57
  {
    Lower(Raise(Clamp(0, 87, n.pitch - 21)))
  }

  function Raise(k: int): (r: int)
    ensures 33 <= r && (r - k) % 12 == 0 && (if k < 33 then r < 45 else r == k)
    decreases 33 - k
  {
    if k < 33 then Raise(k + 12) else k
  }

  function Lower(k: int): (r: int)
    requires 33 <= k
    ensures 33 <= r <= 57 && (r - k) % 12 == 0 && (if k > 57 then r > 45 else r == k)
  {
    if k > 57 then Lower(k - 12) else k
  }

  function InstrumentNumber(i: Instrument): Byte {
    match i
    case Harp => 0 case Strings => 0 case Bass => 1 case Drum => 2 case Snare => 3 case Hat => 4
    case Lute => 5 case Flute => 6 case Bell => 7 case Chime => 8
  }

  function FixedLayer(i: Instrument): nat
    requires !i.Strings?
  {
    match i
    case Bass => 4 case Harp => 5 case Lute => 6 case Flute => 7
    case Bell => 8 case Chime => 8 case Drum => 9 case Snare => 9 case Hat => 9
  }

  // ---------------------------------------------------------------- which note sounds where

  /** How many of the first n notes are strings at tick t. */
  function StringsAt(notes: seq<Note>, n: nat, t: int): nat
    requires n <= |notes|
  {
    if n == 0 then 0 else
      StringsAt(notes, n - 1, t) + (if notes[n - 1].instrument.Strings? && TickOf(notes[n - 1]) == t then 1 else 0)
  }

  function LayerOf(notes: seq<Note>, i: nat): (l: nat)
    requires i < |notes|
    ensures l < LAYERS
  {
    if notes[i].instrument.Strings? then Clamp(0, 3, StringsAt(notes, i, TickOf(notes[i])))
    else FixedLayer(notes[i].instrument)
  }

  /** The notes at tick t among the first n, with their layers. */
  function EventsAt(notes: seq<Note>, n: nat, t: int): (events: seq<(nat, Note)>)
    requires n <= |notes|
    ensures forall e | e in events :: e.0 < LAYERS
  {
    if n == 0 then [] else
      var rest := EventsAt(notes, n - 1, t);
      if TickOf(notes[n - 1]) == t then rest + [(LayerOf(notes, n - 1), notes[n - 1])] else rest
  }

  /** The strongest note of a layer; the first of equals. */
  function StrongestIn(events: seq<(nat, Note)>, layer: nat): Option<Note> {
    if events == [] then None else
      var e := events[|events| - 1];
      var best := StrongestIn(events[..|events| - 1], layer);
      if e.0 == layer && (best.None? || e.1.velocity > best.value.velocity) then Some(e.1) else best
  }

  type Row = r: seq<Option<Note>> | |r| == LAYERS witness seq(LAYERS, _ => None)

  function RowOf(events: seq<(nat, Note)>): Row {
    seq(LAYERS, l requires 0 <= l < LAYERS => StrongestIn(events, l))
  }

  predicate Sounds(cells: seq<Option<Note>>)
    decreases cells
  {
    cells != [] && (cells[0].Some? || Sounds(cells[1..]))
  }

  function GridOf(notes: seq<Note>): (grid: seq<Row>)
    ensures |grid| == LENGTH_TICKS
  {
    seq(LENGTH_TICKS, t requires 0 <= t < LENGTH_TICKS => RowOf(EventsAt(notes, |notes|, t)))
  }

  /** Note i is put in this cell of the grid. */
  ghost predicate InCell(notes: seq<Note>, i: nat, t: int, l: nat)
    requires i < |notes|
  {
    TickOf(notes[i]) == t && LayerOf(notes, i) == l
  }

  /** Note i is the strongest of the first n in this cell, and the first of equals. */
  ghost predicate Wins(notes: seq<Note>, n: nat, i: nat, t: int, l: nat)
    requires i < n <= |notes|
  {
    && InCell(notes, i, t, l)
    && (forall j | 0 <= j < n && InCell(notes, j, t, l) :: notes[j].velocity <= notes[i].velocity)
    && (forall j | 0 <= j < i && InCell(notes, j, t, l) :: notes[j].velocity < notes[i].velocity)
  }

  /** The strongest of the first n notes in this cell, the first of equals. */
  ghost function Best(notes: seq<Note>, n: nat, t: int, l: nat): Option<nat>
    requires n <= |notes|
    ensures Best(notes, n, t, l).Some? ==> Best(notes, n, t, l).value < n
  {
    if n == 0 then None else
      var best := Best(notes, n - 1, t, l);
      if InCell(notes, n - 1, t, l) && (best.None? || notes[n - 1].velocity > notes[best.value].velocity)
      then Some(n - 1) else best
  }

  lemma {:induction false} CellIsBest(notes: seq<Note>, n: nat, t: int, l: nat)
    requires n <= |notes|
    ensures var best := Best(notes, n, t, l);
            StrongestIn(EventsAt(notes, n, t), l) == if best.None? then None else Some(notes[best.value])
  {
    if n > 0 {
      CellIsBest(notes, n - 1, t, l);
      var rest, events := EventsAt(notes, n - 1, t), EventsAt(notes, n, t);
      if TickOf(notes[n - 1]) == t { assert events[..|events| - 1] == rest; }
    }
  }

  lemma StillWins(notes: seq<Note>, n: nat, i: nat, t: int, l: nat)
    requires i < n < |notes| && Wins(notes, n, i, t, l)
    requires InCell(notes, n, t, l) ==> notes[n].velocity <= notes[i].velocity
    ensures Wins(notes, n + 1, i, t, l)
  {
  }

  lemma NowWins(notes: seq<Note>, n: nat, i: nat, t: int, l: nat)
    requires i < n < |notes| && Wins(notes, n, i, t, l)
    requires InCell(notes, n, t, l) && notes[n].velocity > notes[i].velocity
    ensures Wins(notes, n + 1, n, t, l)
  {
  }

  lemma {:induction false} BestWins(notes: seq<Note>, n: nat, t: int, l: nat)
    requires n <= |notes|
    ensures var best := Best(notes, n, t, l);
            if best.Some? then Wins(notes, n, best.value, t, l) else forall j | 0 <= j < n :: !InCell(notes, j, t, l)
  {
    if n > 0 {
      BestWins(notes, n - 1, t, l);
      var best := Best(notes, n - 1, t, l);
      if best.Some? {
        if Best(notes, n, t, l) == best {
          StillWins(notes, n - 1, best.value, t, l);
        } else {
          NowWins(notes, n - 1, best.value, t, l);
        }
      }
    }
  }

  /** A cell of the grid is empty when no note falls in it, and holds the strongest one otherwise. */
  lemma CellHoldsStrongest(notes: seq<Note>, t: int, l: nat)
    ensures var cell := StrongestIn(EventsAt(notes, |notes|, t), l);
            if cell.Some? then exists i | 0 <= i < |notes| :: Wins(notes, |notes|, i, t, l) && notes[i] == cell.value
            else forall j | 0 <= j < |notes| :: !InCell(notes, j, t, l)
  {
    CellIsBest(notes, |notes|, t, l);
    BestWins(notes, |notes|, t, l);
  }

  // ---------------------------------------------------------------- little-endian fields

  /** A number's lowest byte and what is above it, by subtraction, which keeps the proofs linear. */
  function Low(x: nat): (b: Byte)
    ensures b + 0x100 * High(x) == x
  {
    if x < 0x100 then x else Low(x - 0x100)
  }

  function High(x: nat): (h: nat)
    ensures 0x100 * h <= x < 0x100 * h + 0x100
  {
    if x < 0x100 then 0 else 1 + High(x - 0x100)
  }

  function U16(x: int): seq<Byte>
    requires 0 <= x < 0x1_0000
  {
    [Low(x), High(x)]
  }

  function U32(x: int): seq<Byte>
    requires 0 <= x < 0x1_0000_0000
  {
    [Low(x), Low(High(x)), Low(High(High(x))), High(High(High(x)))]
  }

  function Str(s: seq<Byte>): seq<Byte>
    requires |s| < 0x1_0000_0000
  {
    U32(|s|) + s
  }

  // ---------------------------------------------------------------- the printer

  /** Every length and every jump fits its field; a start that rounds below tick -1 would give a
      negative jump. */
  predicate Printable(h: Header, notes: seq<Note>) {
    && |h.title| < 0x1_0000_0000 && |h.author| < 0x1_0000_0000 && |h.description| < 0x1_0000_0000
    && |notes| < 0x1_0000_0000
    && forall n | n in notes :: TickOf(n) >= -1
  }

  function Ascii(s: string): seq<Byte> {
    seq(|s|, i requires 0 <= i < |s| => s[i] as int % 256)
  }

  const MIDI_NAME := "monkeycraft_nexus_awaits.mid"
  const LAYER_NAMES := ["Strings - low", "Strings - middle I", "Strings - middle II", "Strings - high", "Deep drone",
                        "Harp", "Lute", "Flute", "Bells", "Pulse"]

  function PrintFront(): seq<Byte> {
    U16(0) + [5, 16] + U16(LENGTH_TICKS) + U16(LAYERS)
  }

  function PrintTitles(h: Header): seq<Byte>
    requires |h.title| < 0x1_0000_0000 && |h.author| < 0x1_0000_0000 && |h.description| < 0x1_0000_0000
  {
    Str(h.title) + (Str(h.author) + (Str(h.author) + Str(h.description)))
  }

  /** Tempo, editor state and statistics, source file and loop settings. */
  function PrintSettings(noteCount: int): seq<Byte>
    requires 0 <= noteCount < 0x1_0000_0000
  {
    U16(TICKS_PER_SECOND * 100) + ([0, 10, 4] + (U32(0) + U32(0) + U32(0) + U32(noteCount) + U32(0)))
    + (Str(Ascii(MIDI_NAME)) + ([1, 0] + U16(0)))
  }

  function PrintNote(n: Note): seq<Byte> {
    [InstrumentNumber(n.instrument), Key(n), Velocity(n), Panning(n)] + U16(0)
  }

  /** The remaining layers of a row; `gap` is the distance from the last layer printed. */
  function PrintRow(cells: seq<Option<Note>>, gap: nat): seq<Byte>
    requires 0 < gap && gap + |cells| < 0x1_0000
    decreases cells
  {
    if cells == [] then []
    else if cells[0].None? then PrintRow(cells[1..], gap + 1)
    else U16(gap) + PrintNote(cells[0].value) + PrintRow(cells[1..], 1)
  }

  /** The remaining ticks of a grid; `gap` is the distance from the last tick printed. */
  function PrintTicks(grid: seq<Row>, gap: nat): seq<Byte>
    requires 0 < gap && gap + |grid| < 0x1_0000
    decreases grid
  {
    if grid == [] then []
    else if !Sounds(grid[0]) then PrintTicks(grid[1..], gap + 1)
    else U16(gap) + PrintRow(grid[0], 1) + U16(0) + PrintTicks(grid[1..], 1)
  }

  /** The layer names, each with its lock, volume and panning, and the number of custom instruments. */
  function PrintLayers(names: seq<string>): seq<Byte>
    requires forall n | n in names :: |n| < 0x1_0000
    decreases names
  {
    if names == [] then [0] else Str(Ascii(names[0])) + [0, 100, 100] + PrintLayers(names[1..])
  }

  function PrintSong(h: Header, notes: seq<Note>): seq<Byte>
    requires Printable(h, notes)
  {
    PrintParts(h, |notes|, EarlyTick(notes) + PrintRest(notes))
  }

  /** Some note's start rounds to tick -1. */
  predicate StartsEarly(notes: seq<Note>) {
    exists n | n in notes :: TickOf(n) == -1
  }

  /** What is printed for tick -1, whose jump is zero. */
  function EarlyTick(notes: seq<Note>): seq<Byte> {
    if StartsEarly(notes) then U16(0) + PrintRow(RowOf(EventsAt(notes, |notes|, -1)), 1) + U16(0) else []
  }

  /** The ticks from zero on, and the layers. */
  function PrintRest(notes: seq<Note>): seq<Byte> {
    PrintTicks(GridOf(notes), 1) + U16(0) + PrintLayers(LAYER_NAMES)
  }

  function PrintParts(h: Header, noteCount: int, body: seq<Byte>): seq<Byte>
    requires |h.title| < 0x1_0000_0000 && |h.author| < 0x1_0000_0000 && |h.description| < 0x1_0000_0000
    requires 0 <= noteCount < 0x1_0000_0000
  {
    PrintFront() + (PrintTitles(h) + (PrintSettings(noteCount) + body))
  }

  // ---------------------------------------------------------------- the parser

  datatype NbsNote = NbsNote(instrument: int, key: int, velocity: int)

  datatype NbsSong = NbsSong(title: seq<Byte>, author: seq<Byte>, description: seq<Byte>, lengthTicks: int,
                             hundredthsPerSecond: int, notesByTick: map<int, seq<NbsNote>>)

  /** A value read and the bytes after it, or an IOException. */
  datatype Read<+T> = Got(value: T, rest: seq<Byte>) | Failed {
    predicate IsFailure() {
      Failed?
    }

    function PropagateFailure<U>(): Read<U>
      requires Failed?
    {
      Failed
    }

    function Extract(): (T, seq<Byte>)
      requires Got?
    {
      (value, rest)
    }
  }

  function ReadU8(b: seq<Byte>): Read<int> {
    if |b| < 1 then Failed else Got(b[0], b[1..])
  }

  /** Two bytes, low one first. */
  function Little(low: int, high: int): int {
    low + 0x100 * high
  }

  function ReadU16(b: seq<Byte>): Read<int> {
    if |b| < 2 then Failed else Got(Little(b[0], b[1]), b[2..])
  }

  function ReadU32(b: seq<Byte>): Read<int> {
    if |b| < 4 then Failed else Got(Little(b[0], b[1]) + 0x1_0000 * Little(b[2], b[3]), b[4..])
  }

  function ReadBytes(b: seq<Byte>, n: nat): Read<seq<Byte>> {
    if |b| < n then Failed else Got(b[..n], b[n..])
  }

  function ReadStr(b: seq<Byte>): Read<seq<Byte>> {
    var (n, rest) :- ReadU32(b);
    if n < 0 || n > MAX_STRING then Failed else ReadBytes(rest, n)
  }

  /** Java's int, after adding an unsigned short to it. */
  function Wrap(x: int): int {
    if x >= 0x8000_0000 then x - 0x1_0000_0000 else x
  }

  predicate Playable(n: NbsNote) {
    n.instrument < 16 && 33 <= n.key <= 57 && n.velocity > 0
  }

  function AddNote(notes: map<int, seq<NbsNote>>, tick: int, n: NbsNote): map<int, seq<NbsNote>> {
    if !Playable(n) then notes
    else notes[tick := (if tick in notes then notes[tick] else []) + [n]]
  }

  /** The inner loop: jumps and notes of one tick, up to a zero jump. */
  function ReadLayers(b: seq<Byte>, tick: int, notes: map<int, seq<NbsNote>>): (r: Read<map<int, seq<NbsNote>>>)
    ensures r.Got? ==> |r.rest| < |b|
    decreases |b|
  {
    if |b| < 2 then Failed
    else if Little(b[0], b[1]) == 0 then Got(notes, b[2..])
    else if |b| < 8 then Failed
    else ReadLayers(b[8..], tick, AddNote(notes, tick, NbsNote(b[2], b[3], b[4])))
  }

  /** The outer loop: ticks up to a zero jump. */
  function ReadTicks(b: seq<Byte>, tick: int, notes: map<int, seq<NbsNote>>): Read<map<int, seq<NbsNote>>>
    decreases |b|
  {
    if |b| < 2 then Failed
    else if Little(b[0], b[1]) == 0 then Got(notes, b[2..])
    else
      match ReadLayers(b[2..], Wrap(tick + Little(b[0], b[1])), notes)
      case Failed => Failed
      case Got(more, rest) => ReadTicks(rest, Wrap(tick + Little(b[0], b[1])), more)
  }

  /** Format, version, instrument count, length and layer count; the length is kept. */
  function ReadFront(b: seq<Byte>): Read<int> {
    var (formerLength, b1) :- ReadU16(b);
    if formerLength != 0 then Failed else
      var (version, b2) :- ReadU8(b1);
      if version < 4 || version > 5 then Failed else
        var (_, b3) :- ReadU8(b2);
        var (length, b4) :- ReadU16(b3);
        var (_, b5) :- ReadU16(b4);
        Got(length, b5)
  }

  function ReadTitles(b: seq<Byte>): Read<Header> {
    var (title, b1) :- ReadStr(b);
    var (author, b2) :- ReadStr(b1);
    var (_, b3) :- ReadStr(b2);
    var (description, b4) :- ReadStr(b3);
    Got(Header(title, author, description), b4)
  }

  /** The tempo is kept; editor state, statistics, source file and loop settings are skipped. */
  function ReadSettings(b: seq<Byte>): Read<int> {
    var (hundredths, b1) :- ReadU16(b);
    if hundredths <= 0 || hundredths > 2000 then Failed else
      var (_, b2) :- ReadBytes(b1, 3);
      var (_, b3) :- ReadBytes(b2, 20);
      var (_, b4) :- ReadStr(b3);
      var (_, b5) :- ReadBytes(b4, 4);
      Got(hundredths, b5)
  }

  function ReadSong(b: seq<Byte>): Read<NbsSong> {
    var (length, b1) :- ReadFront(b);
    var (h, b2) :- ReadTitles(b1);
    var (hundredths, b3) :- ReadSettings(b2);
    var (notes, b4) :- ReadTicks(b3, -1, map[]);
    Got(NbsSong(h.title, h.author, h.description, length, hundredths, notes), b4)
  }
}
