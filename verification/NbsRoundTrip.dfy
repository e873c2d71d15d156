/** Reading back what the writer printed. */
module NbsRoundTrip {
  import opened Optional
  import opened NbsFormat

  lemma U16RoundTrip(x: int, rest: seq<Byte>)
    requires 0 <= x < 0x1_0000
    ensures ReadU16(U16(x) + rest) == Got(x, rest)
    ensures (U16(x) + rest)[2..] == rest && Little((U16(x) + rest)[0], (U16(x) + rest)[1]) == x
  {
    assert (U16(x) + rest)[2..] == rest;
  }

  lemma U32RoundTrip(x: int, rest: seq<Byte>)
    requires 0 <= x < 0x1_0000_0000
    ensures ReadU32(U32(x) + rest) == Got(x, rest)
  {
    assert (U32(x) + rest)[4..] == rest;
  }

  lemma StrRoundTrip(s: seq<Byte>, rest: seq<Byte>)
    requires |s| < 0x1_0000_0000
    ensures ReadStr(Str(s) + rest) == if |s| <= MAX_STRING then Got(s, rest) else Failed
  {
    assert Str(s) + rest == U32(|s|) + (s + rest);
    U32RoundTrip(|s|, s + rest);
    assert (s + rest)[..|s|] == s && (s + rest)[|s|..] == rest;
  }

  // ---------------------------------------------------------------- notes

  function Heard(n: Note): NbsNote {
    NbsNote(InstrumentNumber(n.instrument), Key(n), Velocity(n))
  }

  /** The notes of a row's cells, in layer order. */
  function RowNotes(cells: seq<Option<Note>>): seq<NbsNote>
    decreases cells
  {
    if cells == [] then []
    else if cells[0].None? then RowNotes(cells[1..])
    else [Heard(cells[0].value)] + RowNotes(cells[1..])
  }

  /** No note the writer prints is dropped by the reader's filter. */
  lemma FilterDropsNothing(n: Note)
    ensures Playable(Heard(n)) && 1 <= Heard(n).velocity <= 100
  {
  }

  function Extended(notes: map<int, seq<NbsNote>>, tick: int, more: seq<NbsNote>): map<int, seq<NbsNote>> {
    if more == [] then notes else notes[tick := (if tick in notes then notes[tick] else []) + more]
  }

  lemma OneNote(n: Note, jump: int, tick: int, notes: map<int, seq<NbsNote>>, after: seq<Byte>)
    requires 0 < jump < 0x1_0000
    ensures ReadLayers(U16(jump) + (PrintNote(n) + after), tick, notes)
         == ReadLayers(after, tick, AddNote(notes, tick, Heard(n)))
  {
    U16RoundTrip(jump, PrintNote(n) + after);
    assert (U16(jump) + (PrintNote(n) + after))[8..] == after;
  }

  lemma Regroup(a: seq<Byte>, b: seq<Byte>, c: seq<Byte>, d: seq<Byte>, e: seq<Byte>)
    ensures a + b + c + d + e == a + (b + (c + d + e))
  {
  }

  lemma {:induction false} RowRoundTrip(cells: seq<Option<Note>>, gap: nat, tick: int, notes: map<int, seq<NbsNote>>,
                                        rest: seq<Byte>)
    requires 0 < gap && gap + |cells| < 0x1_0000
    ensures ReadLayers(PrintRow(cells, gap) + U16(0) + rest, tick, notes)
         == Got(Extended(notes, tick, RowNotes(cells)), rest)
    decreases cells
  {
    if cells == [] {
      assert PrintRow(cells, gap) + U16(0) + rest == U16(0) + rest;
      U16RoundTrip(0, rest);
    } else if cells[0].None? {
      RowRoundTrip(cells[1..], gap + 1, tick, notes, rest);
    } else {
      var n := cells[0].value;
      var after := PrintRow(cells[1..], 1) + U16(0) + rest;
      Regroup(U16(gap), PrintNote(n), PrintRow(cells[1..], 1), U16(0), rest);
      OneNote(n, gap, tick, notes, after);
      FilterDropsNothing(n);
      RowRoundTrip(cells[1..], 1, tick, AddNote(notes, tick, Heard(n)), rest);
      ExtendTwice(notes, tick, Heard(n), RowNotes(cells[1..]));
    }
  }

  lemma ExtendTwice(notes: map<int, seq<NbsNote>>, tick: int, n: NbsNote, more: seq<NbsNote>)
    requires Playable(n)
    ensures Extended(AddNote(notes, tick, n), tick, more) == Extended(notes, tick, [n] + more)
  {
    var known := if tick in notes then notes[tick] else [];
    assert known + [n] + more == known + ([n] + more);
    if more == [] { assert [n] + more == [n]; }
  }

  lemma {:induction false} SilentRow(cells: seq<Option<Note>>)
    ensures Sounds(cells) <==> RowNotes(cells) != []
    decreases cells
  {
    if cells != [] { SilentRow(cells[1..]); }
  }

  /** The notes of the remaining ticks of a grid, the first of which is t, added to those of
      earlier ticks. */
  function GridNotes(grid: seq<Row>, t: nat, notes: map<int, seq<NbsNote>>): map<int, seq<NbsNote>>
    decreases grid
  {
    if grid == [] then notes else GridNotes(grid[1..], t + 1, Extended(notes, t, RowNotes(grid[0])))
  }

  lemma OneTick(gap: int, tick: int, row: seq<Byte>, notes: map<int, seq<NbsNote>>,
                more: map<int, seq<NbsNote>>, after: seq<Byte>)
    requires 0 < gap < 0x1_0000 && -1 <= tick && tick + gap < 0x1_0000
    requires ReadLayers(row, tick + gap, notes) == Got(more, after)
    ensures ReadTicks(U16(gap) + row, tick, notes) == ReadTicks(after, tick + gap, more)
  {
    U16RoundTrip(gap, row);
  }

  /** The remaining ticks of a grid, printed after tick `previous` and before `rest`. */
  function Ticks(grid: seq<Row>, t: nat, previous: int, rest: seq<Byte>): seq<Byte>
    requires -1 <= previous < t && t + |grid| <= LENGTH_TICKS
  {
    PrintTicks(grid, t - previous) + U16(0) + rest
  }

  lemma {:induction false} TicksRoundTrip(grid: seq<Row>, t: nat, previous: int, notes: map<int, seq<NbsNote>>,
                                          rest: seq<Byte>)
    requires -1 <= previous < t && t + |grid| <= LENGTH_TICKS
    ensures ReadTicks(Ticks(grid, t, previous, rest), previous, notes) == Got(GridNotes(grid, t, notes), rest)
    decreases grid
  {
    if grid == [] {
      LastTick(t, previous, notes, rest);
    } else if !Sounds(grid[0]) {
      TicksRoundTrip(grid[1..], t + 1, previous, notes, rest);
      SilentTick(grid, t, previous, notes, rest);
    } else {
      TicksRoundTrip(grid[1..], t + 1, t, Extended(notes, t, RowNotes(grid[0])), rest);
      SoundingTick(grid, t, previous, notes, rest);
    }
  }

  lemma LastTick(t: nat, previous: int, notes: map<int, seq<NbsNote>>, rest: seq<Byte>)
    requires -1 <= previous < t <= LENGTH_TICKS
    ensures ReadTicks(Ticks([], t, previous, rest), previous, notes) == Got(GridNotes([], t, notes), rest)
  {
    NoMoreTicks(PrintTicks([], t - previous), previous, notes, rest);
  }

  lemma SilentTick(grid: seq<Row>, t: nat, previous: int, notes: map<int, seq<NbsNote>>, rest: seq<Byte>)
    requires -1 <= previous < t && t + |grid| <= LENGTH_TICKS && grid != [] && !Sounds(grid[0])
    ensures Ticks(grid, t, previous, rest) == Ticks(grid[1..], t + 1, previous, rest)
    ensures GridNotes(grid, t, notes) == GridNotes(grid[1..], t + 1, notes)
  {
    SkipTick(grid, t, t - previous, notes);
  }

  lemma NoMoreTicks(b: seq<Byte>, tick: int, notes: map<int, seq<NbsNote>>, rest: seq<Byte>)
    requires b == []
    ensures ReadTicks(b + U16(0) + rest, tick, notes) == Got(notes, rest)
  {
    assert b + U16(0) + rest == U16(0) + rest;
    U16RoundTrip(0, rest);
  }

  lemma SkipTick(grid: seq<Row>, t: nat, gap: nat, notes: map<int, seq<NbsNote>>)
    requires 0 < gap && gap + |grid| < 0x1_0000 && grid != [] && !Sounds(grid[0])
    ensures PrintTicks(grid, gap) == PrintTicks(grid[1..], gap + 1)
    ensures GridNotes(grid, t, notes) == GridNotes(grid[1..], t + 1, notes)
  {
    SilentRow(grid[0]);
  }

  lemma SoundingTick(grid: seq<Row>, t: nat, previous: int, notes: map<int, seq<NbsNote>>, rest: seq<Byte>)
    requires -1 <= previous < t && t + |grid| <= LENGTH_TICKS && grid != [] && Sounds(grid[0])
    ensures ReadTicks(Ticks(grid, t, previous, rest), previous, notes)
         == ReadTicks(Ticks(grid[1..], t + 1, t, rest), t, Extended(notes, t, RowNotes(grid[0])))
    ensures GridNotes(grid, t, notes) == GridNotes(grid[1..], t + 1, Extended(notes, t, RowNotes(grid[0])))
  {
    TicksSplit(grid, t - previous, rest);
    JoinTick(grid[0], t, previous, notes, PrintTicks(grid[1..], 1) + U16(0) + rest);
  }

  lemma JoinTick(row: Row, t: nat, previous: int, notes: map<int, seq<NbsNote>>, after: seq<Byte>)
    requires -1 <= previous < t < LENGTH_TICKS
    ensures ReadTicks(U16(t - previous) + (PrintRow(row, 1) + U16(0) + after), previous, notes)
         == ReadTicks(after, t, Extended(notes, t, RowNotes(row)))
  {
    RowRoundTrip(row, 1, t, notes, after);
    OneTick(t - previous, previous, PrintRow(row, 1) + U16(0) + after, notes, Extended(notes, t, RowNotes(row)), after);
  }

  lemma TicksSplit(grid: seq<Row>, gap: nat, rest: seq<Byte>)
    requires 0 < gap && gap + |grid| < 0x1_0000 && grid != [] && Sounds(grid[0])
    ensures PrintTicks(grid, gap) + U16(0) + rest
         == U16(gap) + (PrintRow(grid[0], 1) + U16(0) + (PrintTicks(grid[1..], 1) + U16(0) + rest))
  {
    Reassociate(U16(gap), PrintRow(grid[0], 1), U16(0), PrintTicks(grid[1..], 1), rest);
  }

  lemma Reassociate(a: seq<Byte>, b: seq<Byte>, z: seq<Byte>, c: seq<Byte>, rest: seq<Byte>)
    ensures a + b + z + c + z + rest == a + (b + z + (c + z + rest))
  {
  }

  /** What the reader should end with after the ticks below t: for every tick at which something
      sounds, the cells of its row in layer order. */
  function NotesBelow(grid: seq<Row>, t: nat): map<int, seq<NbsNote>>
    requires t <= |grid|
  {
    map k | 0 <= k < t && RowNotes(grid[k]) != [] :: RowNotes(grid[k])
  }

  lemma OneMoreTick(grid: seq<Row>, t: nat)
    requires t < |grid|
    ensures Extended(NotesBelow(grid, t), t, RowNotes(grid[t])) == NotesBelow(grid, t + 1)
  {
    var now, next := NotesBelow(grid, t), NotesBelow(grid, t + 1);
    assert t !in now && [] + RowNotes(grid[t]) == RowNotes(grid[t]);
    assert next == if RowNotes(grid[t]) == [] then now else now[t := RowNotes(grid[t])];
  }

  lemma {:induction false} GridNotesByTick(grid: seq<Row>, t: nat)
    requires t <= |grid|
    ensures GridNotes(grid[t..], t, NotesBelow(grid, t)) == NotesBelow(grid, |grid|)
    decreases |grid| - t
  {
    if t < |grid| {
      OneMoreTick(grid, t);
      assert grid[t..][1..] == grid[t + 1..];
      GridNotesByTick(grid, t + 1);
    }
  }

  // ---------------------------------------------------------------- the header

  predicate Readable(h: Header) {
    |h.title| <= MAX_STRING && |h.author| <= MAX_STRING && |h.description| <= MAX_STRING
  }

  lemma FrontRoundTrip(rest: seq<Byte>)
    ensures ReadFront(PrintFront() + rest) == Got(LENGTH_TICKS, rest)
  {
    var b := PrintFront() + rest;
    assert PrintFront() == [0, 0, 5, 16, Low(LENGTH_TICKS), High(LENGTH_TICKS), LAYERS, 0];
    assert b[2..] == [5, 16, Low(LENGTH_TICKS), High(LENGTH_TICKS), LAYERS, 0] + rest;
    assert b[2..][1..] == [16, Low(LENGTH_TICKS), High(LENGTH_TICKS), LAYERS, 0] + rest;
    assert b[2..][1..][1..] == [Low(LENGTH_TICKS), High(LENGTH_TICKS), LAYERS, 0] + rest;
    assert b[2..][1..][1..][2..] == [LAYERS, 0] + rest;
    assert b[2..][1..][1..][2..][2..] == rest;
  }

  lemma TitlesRoundTrip(h: Header, rest: seq<Byte>)
    requires |h.title| < 0x1_0000_0000 && |h.author| < 0x1_0000_0000 && |h.description| < 0x1_0000_0000
    ensures ReadTitles(PrintTitles(h) + rest) == if Readable(h) then Got(h, rest) else Failed
  {
    var b3 := Str(h.description) + rest;
    var b2 := Str(h.author) + b3;
    var b1 := Str(h.author) + b2;
    assert PrintTitles(h) + rest == Str(h.title) + b1;
    StrRoundTrip(h.title, b1);
    StrRoundTrip(h.author, b2);
    StrRoundTrip(h.author, b3);
    StrRoundTrip(h.description, rest);
  }

  lemma SettingsRoundTrip(count: int, rest: seq<Byte>)
    requires 0 <= count < 0x1_0000_0000
    ensures ReadSettings(PrintSettings(count) + rest) == Got(TICKS_PER_SECOND * 100, rest)
  {
    var editor: seq<Byte> := [0, 10, 4];
    var statistics := U32(0) + U32(0) + U32(0) + U32(count) + U32(0);
    var loop := [1, 0] + U16(0);
    var b3 := Str(Ascii(MIDI_NAME)) + (loop + rest);
    assert PrintSettings(count) + rest == U16(TICKS_PER_SECOND * 100) + (editor + (statistics + b3));
    U16RoundTrip(TICKS_PER_SECOND * 100, editor + (statistics + b3));
    assert (editor + (statistics + b3))[3..] == statistics + b3;
    assert (statistics + b3)[20..] == b3;
    StrRoundTrip(Ascii(MIDI_NAME), loop + rest);
    assert (loop + rest)[4..] == rest;
  }

  // ---------------------------------------------------------------- the round trip

  /** The song the reader should make of a header and the notes. */
  function SongOf(h: Header, notes: seq<Note>): NbsSong {
    NbsSong(h.title, h.author, h.description, LENGTH_TICKS, TICKS_PER_SECOND * 100, NotesRead(notes))
  }

  function NotesRead(notes: seq<Note>): map<int, seq<NbsNote>> {
    if StartsEarly(notes) then map[] else NotesBelow(GridOf(notes), LENGTH_TICKS)
  }

  /** What the reader leaves unread. */
  function AfterSong(notes: seq<Note>): seq<Byte> {
    if StartsEarly(notes) then PrintRow(RowOf(EventsAt(notes, |notes|, -1)), 1) + U16(0) + PrintRest(notes)
    else PrintLayers(LAYER_NAMES)
  }

  /** Reading what was written gives back the title, author, description, length and tempo, and at
      each tick, in layer order, the strongest note of each layer. It succeeds exactly when the three
      strings are within the reader's limit; and the notes come back exactly when none rounds to tick
      -1, whose zero jump the reader takes for the end. */
  lemma RoundTrip(h: Header, notes: seq<Note>)
    requires Printable(h, notes)
    ensures ReadSong(PrintSong(h, notes)) == if Readable(h) then Got(SongOf(h, notes), AfterSong(notes)) else Failed
  {
    PartsRoundTrip(h, |notes|, EarlyTick(notes) + PrintRest(notes));
    NotesRoundTrip(notes);
  }

  lemma NotesRoundTrip(notes: seq<Note>)
    ensures ReadTicks(EarlyTick(notes) + PrintRest(notes), -1, map[]) == Got(NotesRead(notes), AfterSong(notes))
  {
    if StartsEarly(notes) {
      ZeroJumpEnds(PrintRow(RowOf(EventsAt(notes, |notes|, -1)), 1), PrintRest(notes));
    } else {
      TimelyRoundTrip(notes);
    }
  }

  lemma TimelyRoundTrip(notes: seq<Note>)
    requires !StartsEarly(notes)
    ensures ReadTicks(EarlyTick(notes) + PrintRest(notes), -1, map[]) == Got(NotesRead(notes), PrintLayers(LAYER_NAMES))
  {
    GridAlone(EarlyTick(notes), GridOf(notes), PrintLayers(LAYER_NAMES));
  }

  lemma GridAlone(early: seq<Byte>, grid: seq<Row>, tail: seq<Byte>)
    requires early == [] && |grid| == LENGTH_TICKS
    ensures ReadTicks(early + (PrintTicks(grid, 1) + U16(0) + tail), -1, map[])
         == Got(NotesBelow(grid, LENGTH_TICKS), tail)
  {
    assert early + (PrintTicks(grid, 1) + U16(0) + tail) == PrintTicks(grid, 1) + U16(0) + tail;
    GridRoundTrip(grid, tail);
  }

  lemma ZeroJumpEnds(row: seq<Byte>, rest: seq<Byte>)
    ensures ReadTicks(U16(0) + row + U16(0) + rest, -1, map[]) == Got(map[], row + U16(0) + rest)
  {
    assert U16(0) + row + U16(0) + rest == U16(0) + (row + U16(0) + rest);
    U16RoundTrip(0, row + U16(0) + rest);
  }

  lemma PartsRoundTrip(h: Header, count: int, body: seq<Byte>)
    requires |h.title| < 0x1_0000_0000 && |h.author| < 0x1_0000_0000 && |h.description| < 0x1_0000_0000
    requires 0 <= count < 0x1_0000_0000
    ensures ReadSong(PrintParts(h, count, body))
         == if Readable(h) && ReadTicks(body, -1, map[]).Got?
            then Got(NbsSong(h.title, h.author, h.description, LENGTH_TICKS, TICKS_PER_SECOND * 100,
                             ReadTicks(body, -1, map[]).value),
                     ReadTicks(body, -1, map[]).rest)
            else Failed
  {
    FrontRoundTrip(PrintTitles(h) + (PrintSettings(count) + body));
    TitlesRoundTrip(h, PrintSettings(count) + body);
    SettingsRoundTrip(count, body);
  }

  lemma GridRoundTrip(grid: seq<Row>, tail: seq<Byte>)
    requires |grid| == LENGTH_TICKS
    ensures ReadTicks(PrintTicks(grid, 1) + U16(0) + tail, -1, map[]) == Got(NotesBelow(grid, LENGTH_TICKS), tail)
  {
    TicksRoundTrip(grid, 0, -1, map[], tail);
    GridNotesByTick(grid, 0);
    assert NotesBelow(grid, 0) == map[] && grid[0..] == grid;
  }

  /** How many of some cells hold a note. */
  function Sounding(cells: seq<Option<Note>>): nat
    decreases cells
  {
    if cells == [] then 0 else Sounding(cells[1..]) + (if cells[0].Some? then 1 else 0)
  }

  lemma {:induction false} RowSplits(cells: seq<Option<Note>>, l: nat)
    requires l <= |cells|
    ensures |RowNotes(cells)| == Sounding(cells) == Sounding(cells[..l]) + |RowNotes(cells[l..])|
    ensures RowNotes(cells)[Sounding(cells[..l])..] == RowNotes(cells[l..])
    decreases cells
  {
    if cells == [] {
      assert cells[..l] == [];
    } else if l == 0 {
      RowSplits(cells[1..], 0);
      assert cells[..0] == [] && cells[0..] == cells;
    } else {
      RowSplits(cells[1..], l - 1);
      assert cells[..l][1..] == cells[1..][..l - 1];
      assert cells[l..] == cells[1..][l - 1..];
    }
  }

  /** Note by note: reading what was written succeeds, and for every tick and layer that some note
      falls in, the list read for that tick has, at the layer's place among the sounding layers, the
      strongest of those notes (the first of equals), with its key folded into the playable range;
      and the list holds one entry per sounding layer. */
  lemma EveryCellIsHeard(h: Header, notes: seq<Note>, t: nat, l: nat, i: nat)
    requires Printable(h, notes) && Readable(h) && !StartsEarly(notes)
    requires t < LENGTH_TICKS && l < LAYERS && i < |notes| && InCell(notes, i, t, l)
    ensures var song := ReadSong(PrintSong(h, notes));
            var place := Sounding(GridOf(notes)[t][..l]);
            && song.Got?
            && t in song.value.notesByTick && place < |song.value.notesByTick[t]| == Sounding(GridOf(notes)[t])
            && IsStrongest(notes, t, l, song.value.notesByTick[t][place])
  {
    RoundTrip(h, notes);
    CellIsHeard(notes, t, l, i);
  }

  /** The sound of the strongest note of a cell, the first of equals. */
  ghost predicate IsStrongest(notes: seq<Note>, t: nat, l: nat, heard: NbsNote) {
    exists i | 0 <= i < |notes| :: Wins(notes, |notes|, i, t, l) && heard == Heard(notes[i])
  }

  lemma CellIsHeard(notes: seq<Note>, t: nat, l: nat, i: nat)
    requires t < LENGTH_TICKS && l < LAYERS && i < |notes| && InCell(notes, i, t, l)
    ensures var heard := NotesBelow(GridOf(notes), LENGTH_TICKS);
            var place := Sounding(GridOf(notes)[t][..l]);
            && t in heard && place < |heard[t]| == Sounding(GridOf(notes)[t])
            && IsStrongest(notes, t, l, heard[t][place])
  {
    CellHoldsStrongest(notes, t, l);
    RowAt(notes, t, l);
    CellInRow(GridOf(notes)[t], l);
  }

  lemma RowAt(notes: seq<Note>, t: nat, l: nat)
    requires t < LENGTH_TICKS && l < LAYERS
    ensures GridOf(notes)[t][l] == StrongestIn(EventsAt(notes, |notes|, t), l)
    ensures RowNotes(GridOf(notes)[t]) != [] ==>
              var heard := NotesBelow(GridOf(notes), LENGTH_TICKS);
              t in heard && heard[t] == RowNotes(GridOf(notes)[t])
  {
    assert GridOf(notes)[t] == RowOf(EventsAt(notes, |notes|, t));
  }

  lemma CellInRow(row: Row, l: nat)
    requires l < LAYERS && row[l].Some?
    ensures Sounding(row[..l]) < |RowNotes(row)| == Sounding(row)
    ensures RowNotes(row)[Sounding(row[..l])] == Heard(row[l].value)
  {
    RowSplits(row, l);
    assert row[l..][0] == row[l];
    assert RowNotes(row)[Sounding(row[..l])] == RowNotes(row)[Sounding(row[..l])..][0];
  }

  /** And no note falls outside the grid: with a non-negative start every note has a cell. */
  lemma EveryNoteHasACell(notes: seq<Note>, i: nat)
    requires i < |notes| && notes[i].start >= 0.0
    ensures 0 <= TickOf(notes[i]) < LENGTH_TICKS && InCell(notes, i, TickOf(notes[i]), LayerOf(notes, i))
  {
    TickIsNatural(notes[i]);
  }

  /** So the promise holds for all songs without negative starts: they print, and none starts early. */
  lemma NonNegativeStarts(h: Header, notes: seq<Note>)
    requires |h.title| < 0x1_0000_0000 && |h.author| < 0x1_0000_0000 && |h.description| < 0x1_0000_0000
    requires |notes| < 0x1_0000_0000 && forall n | n in notes :: n.start >= 0.0
    ensures Printable(h, notes) && !StartsEarly(notes)
  {
    forall n | n in notes ensures TickOf(n) >= 0 { TickIsNatural(n); }
  }
}
