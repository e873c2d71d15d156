/** The writer and the reader themselves: `write_nbs` with its dictionaries and output stream, and
    `NbsReader.read` with its input cursor. */
module NbsSong {
  import opened Optional
  import opened NbsFormat
  import opened NbsHearing

  // ---------------------------------------------------------------- the writer

  /** `nbs_key`: the two loops that fold a key. */
  method FoldKey(n: Note) returns (k: int)
    ensures k == Key(n)
  {
    k := Clamp(0, 87, n.pitch - 21);
    ghost var k0 := k;
    while k < 33
      invariant Raise(k) == Raise(k0)
      decreases 33 - k
    {
      k := k + 12;
    }
    ghost var k1 := k;
    while k > 57
      invariant k >= 33 && Lower(k) == Lower(k1)
    {
      k := k - 12;
    }
  }

  /** Each tick at which one of the first n notes falls, with those notes and their layers, and no
      other tick. */
  ghost predicate Grouped(events: map<int, seq<(nat, Note)>>, notes: seq<Note>, n: nat)
    requires n <= |notes|
  {
    forall t :: (t in events <==> EventsAt(notes, n, t) != []) && (t in events ==> events[t] == EventsAt(notes, n, t))
  }

  /** The first loop: notes sorted into ticks, each with its layer. */
  method CollectEvents(notes: seq<Note>) returns (events: map<int, seq<(nat, Note)>>)
    ensures Grouped(events, notes, |notes|)
  {
    events := map[];
    var stringCount: map<int, nat> := map[];
    for i := 0 to |notes|
      invariant Grouped(events, notes, i)
      invariant forall t :: Clamp(0, 4, StringsAt(notes, i, t)) == if t in stringCount then stringCount[t] else 0
    {
      var n := notes[i];
      var tick := TickOf(n);
      var layer: nat;
      if n.instrument.Strings? {
        layer := Clamp(0, 3, if tick in stringCount then stringCount[tick] else 0);
        stringCount := stringCount[tick := layer + 1];
      } else {
        layer := FixedLayer(n.instrument);
      }
      assert layer == LayerOf(notes, i);
      events := events[tick := (if tick in events then events[tick] else []) + [(layer, n)]];
    }
  }

  /** The strongest note of each layer of one tick. */
  method StrongestByLayer(events: seq<(nat, Note)>) returns (layerNotes: map<nat, Note>)
    ensures forall l :: (l in layerNotes <==> StrongestIn(events, l).Some?)
                        && (l in layerNotes ==> Some(layerNotes[l]) == StrongestIn(events, l))
  {
    layerNotes := map[];
    for i := 0 to |events|
      invariant forall l :: (l in layerNotes <==> StrongestIn(events[..i], l).Some?)
                            && (l in layerNotes ==> Some(layerNotes[l]) == StrongestIn(events[..i], l))
    {
      assert events[..i + 1][..i] == events[..i];
      var (layer, note) := events[i];
      if layer !in layerNotes || note.velocity > layerNotes[layer].velocity {
        layerNotes := layerNotes[layer := note];
      }
    }
    assert events[..|events|] == events;
  }

  /** One tick's notes in layer order. */
  method WriteLayers(events: seq<(nat, Note)>) returns (out: seq<Byte>)
    requires forall e | e in events :: e.0 < LAYERS
    ensures out == PrintRow(RowOf(events), 1)
  {
    var layerNotes := StrongestByLayer(events);
    ghost var row := RowOf(events);
    out := [];
    var previous := -1;
    for l := 0 to LAYERS
      invariant -1 <= previous < l
      invariant out + PrintRow(row[l..], l - previous) == PrintRow(row, 1)
    {
      PrintOneLayer(row, l, l - previous, out);
      assert row[l] == StrongestIn(events, l);
      if l in layerNotes {
        var note := layerNotes[l];
        var key := FoldKey(note);
        var bytes := [InstrumentNumber(note.instrument), key, Velocity(note), Panning(note)] + U16(0);
        out := out + U16(l - previous) + bytes;
        previous := l;
      }
    }
    assert row[LAYERS..] == [];
  }

  lemma PrintOneLayer(row: Row, l: nat, gap: nat, out: seq<Byte>)
    requires l < LAYERS && 0 < gap && gap + LAYERS < 0x1_0000
    ensures out + PrintRow(row[l..], gap)
         == if row[l].Some? then (out + U16(gap) + PrintNote(row[l].value)) + PrintRow(row[l + 1..], 1)
            else out + PrintRow(row[l + 1..], gap + 1)
  {
    assert row[l..][0] == row[l] && row[l..][1..] == row[l + 1..];
  }

  /** `write_nbs`; None where `struct.pack` raises because a length or a jump does not fit its field. Every
      song in which nothing starts early is written, and read back it is heard as it was composed. */
  method WriteNbs(h: Header, notes: seq<Note>) returns (out: Option<seq<Byte>>)
    ensures out.Some? <==> Printable(h, notes)
    ensures out.Some? ==> out.value == PrintSong(h, notes)
    ensures out.Some? ==> |out.value| >= 8 && out.value[..8] == [0, 0, 5, 16, 40, 35, 10, 0]
    ensures Composed(h, notes) ==>
              out.Some? && ReadSong(out.value).Got? && SongHeard(h, notes, ReadSong(out.value).value)
  {
    out := WriteBytes(h, notes);
    if Printable(h, notes) { PrintedStart(h, notes); }
    if Composed(h, notes) { SongIsHeard(h, notes); }
  }

  method WriteBytes(h: Header, notes: seq<Note>) returns (out: Option<seq<Byte>>)
    ensures out.Some? <==> Printable(h, notes)
    ensures out.Some? ==> out.value == PrintSong(h, notes)
  {
    if |h.title| >= 0x1_0000_0000 || |h.author| >= 0x1_0000_0000 || |h.description| >= 0x1_0000_0000 { return None; }
    if |notes| >= 0x1_0000_0000 { return None; }
    var events := CollectEvents(notes);
    var early := WriteEarly(notes, events);
    if early.None? { return None; }
    var ticks := WriteTicks(notes, events);
    out := Some(PrintFront() + (PrintTitles(h) + (PrintSettings(|notes|)
                + (early.value + (ticks + U16(0) + PrintLayers(LAYER_NAMES))))));
  }

  /** The ticks below zero come first: the jump to tick -1 is zero, and one below that does not fit. */
  method WriteEarly(notes: seq<Note>, events: map<int, seq<(nat, Note)>>) returns (out: Option<seq<Byte>>)
    requires Grouped(events, notes, |notes|)
    ensures out.Some? <==> forall n | n in notes :: TickOf(n) >= -1
    ensures out.Some? ==> out.value == EarlyTick(notes)
  {
    TicksOfNotes(events, notes);
    if exists t | t in events :: t < -1 { return None; }
    if -1 in events {
      TickEvents(events, notes, -1);
      var row := WriteLayers(events[-1]);
      out := Some(U16(0) + row + U16(0));
    } else {
      out := Some([]);
    }
  }

  lemma TickEvents(events: map<int, seq<(nat, Note)>>, notes: seq<Note>, t: int)
    requires Grouped(events, notes, |notes|) && t in events
    ensures events[t] == EventsAt(notes, |notes|, t) && forall e | e in events[t] :: e.0 < LAYERS
  {
  }

  /** The dictionary's ticks are those of the notes. */
  lemma TicksOfNotes(events: map<int, seq<(nat, Note)>>, notes: seq<Note>)
    requires Grouped(events, notes, |notes|)
    ensures forall n | n in notes :: TickOf(n) in events
    ensures forall t | t in events :: exists n | n in notes :: TickOf(n) == t
  {
    forall n | n in notes ensures TickOf(n) in events {
      var i :| 0 <= i < |notes| && notes[i] == n;
      SomeEvent(notes, |notes|, TickOf(n));
    }
    forall t | t in events ensures exists n | n in notes :: TickOf(n) == t {
      SomeEvent(notes, |notes|, t);
      var i :| 0 <= i < |notes| && TickOf(notes[i]) == t;
      assert notes[i] in notes;
    }
  }

  lemma {:induction false} SomeEvent(notes: seq<Note>, n: nat, t: int)
    requires n <= |notes|
    ensures EventsAt(notes, n, t) != [] <==> exists i | 0 <= i < n :: TickOf(notes[i]) == t
  {
    if n > 0 { SomeEvent(notes, n - 1, t); }
  }

  /** The other ticks in ascending order. */
  method WriteTicks(notes: seq<Note>, events: map<int, seq<(nat, Note)>>) returns (out: seq<Byte>)
    requires Grouped(events, notes, |notes|)
    ensures out == PrintTicks(GridOf(notes), 1)
  {
    ghost var grid := GridOf(notes);
    forall t | 0 <= t < LENGTH_TICKS ensures HasRow(events, grid, t) { TickRow(events, notes, t); }
    out := WriteRows(events, grid);
  }

  /** The dictionary has a tick exactly when its row of the grid sounds, and holds that row. */
  ghost predicate HasRow(events: map<int, seq<(nat, Note)>>, grid: seq<Row>, t: nat)
    requires t < |grid|
  {
    && (t in events <==> Sounds(grid[t]))
    && (t in events ==> RowOf(events[t]) == grid[t] && forall e | e in events[t] :: e.0 < LAYERS)
  }

  method WriteRows(events: map<int, seq<(nat, Note)>>, ghost grid: seq<Row>) returns (out: seq<Byte>)
    requires |grid| == LENGTH_TICKS && forall t | 0 <= t < LENGTH_TICKS :: HasRow(events, grid, t)
    ensures out == PrintTicks(grid, 1)
  {
    out := [];
    var previous := -1;
    for t := 0 to LENGTH_TICKS
      invariant -1 <= previous < t
      invariant out + PrintTicks(grid[t..], t - previous) == PrintTicks(grid, 1)
    {
      PrintOneTick(grid, t, t - previous, out);
      assert HasRow(events, grid, t);
      if t in events {
        var row := WriteLayers(events[t]);
        out := out + U16(t - previous) + row + U16(0);
        previous := t;
      }
    }
    assert grid[LENGTH_TICKS..] == [];
  }

  lemma TickRow(events: map<int, seq<(nat, Note)>>, notes: seq<Note>, t: nat)
    requires Grouped(events, notes, |notes|) && t < LENGTH_TICKS
    ensures HasRow(events, GridOf(notes), t)
  {
    assert GridOf(notes)[t] == RowOf(EventsAt(notes, |notes|, t));
    SoundsWithEvents(EventsAt(notes, |notes|, t));
  }

  lemma PrintOneTick(grid: seq<Row>, t: nat, gap: nat, out: seq<Byte>)
    requires t < |grid| && 0 < gap && gap + |grid| < 0x1_0000
    ensures out + PrintTicks(grid[t..], gap)
         == if Sounds(grid[t]) then (out + U16(gap) + PrintRow(grid[t], 1) + U16(0)) + PrintTicks(grid[t + 1..], 1)
            else out + PrintTicks(grid[t + 1..], gap + 1)
  {
    assert grid[t..][0] == grid[t] && grid[t..][1..] == grid[t + 1..];
    if Sounds(grid[t]) { Associate(out, U16(gap), PrintRow(grid[t], 1), U16(0), PrintTicks(grid[t + 1..], 1)); }
  }

  lemma Associate(a: seq<Byte>, b: seq<Byte>, c: seq<Byte>, d: seq<Byte>, e: seq<Byte>)
    ensures a + (b + c + d + e) == a + b + c + d + e
  {
  }

  lemma {:induction false} SomeCellSounds(cells: seq<Option<Note>>, l: nat)
    requires l < |cells| && cells[l].Some?
    ensures Sounds(cells)
    decreases cells
  {
    if l > 0 { SomeCellSounds(cells[1..], l - 1); }
  }

  lemma {:induction false} SoundsSomewhere(cells: seq<Option<Note>>) returns (l: nat)
    requires Sounds(cells)
    ensures l < |cells| && cells[l].Some?
    decreases cells
  {
    if cells[0].Some? {
      l := 0;
    } else {
      l := SoundsSomewhere(cells[1..]);
      l := l + 1;
    }
  }

  lemma SoundsWithEvents(events: seq<(nat, Note)>)
    requires forall e | e in events :: e.0 < LAYERS
    ensures Sounds(RowOf(events)) <==> events != []
  {
    if events != [] {
      var l := events[|events| - 1].0;
      assert events[|events| - 1] in events;
      SomeCellSounds(RowOf(events), l);
    } else if Sounds(RowOf(events)) {
      var l := SoundsSomewhere(RowOf(events));
    }
  }

  // ---------------------------------------------------------------- the reader

  class LittleEndianInput {
    const data: seq<Byte>
    var position: nat

    ghost predicate Valid()
      reads this
    {
      position <= |data|
    }

    ghost function Rest(): seq<Byte>
      reads this
      requires Valid()
    {
      data[position..]
    }

    constructor (data: seq<Byte>)
      ensures Valid() && Rest() == data
    {
      this.data := data;
      position := 0;
    }

    /** An unsigned byte, or None for an EOFException. */
    method UnsignedByte() returns (r: Option<int>)
      requires Valid()
      modifies this
      ensures Valid() && r.Some? == ReadU8(old(Rest())).Got?
      ensures r.Some? ==> ReadU8(old(Rest())) == Got(r.value, Rest())
    {
      if position == |data| { return None; }
      r := Some(data[position]);
      position := position + 1;
    }

    method UnsignedShort() returns (r: Option<int>)
      requires Valid()
      modifies this
      ensures Valid() && r.Some? == ReadU16(old(Rest())).Got? == (|old(Rest())| >= 2)
      ensures r.Some? ==> r.value == Short(old(Rest())) && Rest() == old(Rest())[2..]
      ensures r.Some? ==> ReadU16(old(Rest())) == Got(r.value, Rest())
    {
      var low := UnsignedByte();
      if low.None? { return None; }
      var high := UnsignedByte();
      if high.None? { return None; }
      r := Some(low.value + 0x100 * high.value);
    }

    method UnsignedInt() returns (r: Option<int>)
      requires Valid()
      modifies this
      ensures Valid() && r.Some? == ReadU32(old(Rest())).Got? == (|old(Rest())| >= 4)
      ensures r.Some? ==> r.value == Long(old(Rest())) && Rest() == old(Rest())[4..]
      ensures r.Some? ==> ReadU32(old(Rest())) == Got(r.value, Rest())
    {
      var low := UnsignedShort();
      if low.None? { return None; }
      var high := UnsignedShort();
      if high.None? { return None; }
      r := Some(low.value + 0x1_0000 * high.value);
    }

    /** `readNBytes` with its length check. */
    method Bytes(n: nat) returns (r: Option<seq<Byte>>)
      requires Valid()
      modifies this
      ensures Valid() && r.Some? == ReadBytes(old(Rest()), n).Got?
      ensures r.Some? ==> ReadBytes(old(Rest()), n) == Got(r.value, Rest())
    {
      if |data| - position < n { return None; }
      assert Rest()[..n] == data[position..position + n] && Rest()[n..] == data[position + n..];
      r := Some(data[position..position + n]);
      position := position + n;
    }

    method String() returns (r: Option<seq<Byte>>)
      requires Valid()
      modifies this
      ensures Valid() && r.Some? == ReadStr(old(Rest())).Got?
      ensures r.Some? ==> |r.value| <= 1_048_576 && old(Rest())[4..] == r.value + Rest()
      ensures r.Some? ==> ReadStr(old(Rest())) == Got(r.value, Rest())
    {
      StringIs(Rest());
      var length := UnsignedInt();
      if length.None? || length.value > MAX_STRING { return None; }
      r := Bytes(length.value);
    }
  }

  /** Format, version, instrument count, length and layer count. */
  method FrontOf(input: LittleEndianInput) returns (r: Option<int>)
    requires input.Valid()
    modifies input
    ensures input.Valid() && r.Some? == ReadFront(old(input.Rest())).Got?
    ensures r.Some? ==> ReadFront(old(input.Rest())) == Got(r.value, input.Rest())
    ensures r.Some? <==> Modern(old(input.Rest()))
    ensures r.Some? ==> r.value == Short(old(input.Rest())[4..]) && input.Rest() == old(input.Rest())[8..]
  {
    FrontIs(input.Rest());
    var formerLength := input.UnsignedShort();
    if formerLength.None? || formerLength.value != 0 { return None; }
    var version := input.UnsignedByte();
    if version.None? || version.value < 4 || version.value > 5 { return None; }
    var instruments := input.UnsignedByte();
    if instruments.None? { return None; }
    var length := input.UnsignedShort();
    if length.None? { return None; }
    var layers := input.UnsignedShort();
    if layers.None? { return None; }
    r := length;
  }

  method TitlesOf(input: LittleEndianInput) returns (r: Option<Header>)
    requires input.Valid()
    modifies input
    ensures input.Valid() && r.Some? == ReadTitles(old(input.Rest())).Got?
    ensures r.Some? ==> ReadTitles(old(input.Rest())) == Got(r.value, input.Rest())
  {
    var title := input.String();
    if title.None? { return None; }
    var author := input.String();
    if author.None? { return None; }
    var original := input.String();
    if original.None? { return None; }
    var description := input.String();
    if description.None? { return None; }
    r := Some(Header(title.value, author.value, description.value));
  }

  method SettingsOf(input: LittleEndianInput) returns (r: Option<int>)
    requires input.Valid()
    modifies input
    ensures input.Valid() && r.Some? == ReadSettings(old(input.Rest())).Got?
    ensures r.Some? ==> ReadSettings(old(input.Rest())) == Got(r.value, input.Rest())
    ensures r.Some? ==>
              |old(input.Rest())| >= 2 && 1 <= r.value <= 2000 && r.value == Short(old(input.Rest()))
  {
    var hundredths := input.UnsignedShort();
    if hundredths.None? || hundredths.value <= 0 || hundredths.value > 2000 { return None; }
    var editor := input.Bytes(3);
    if editor.None? { return None; }
    var statistics := input.Bytes(20);
    if statistics.None? { return None; }
    var source := input.String();
    if source.None? { return None; }
    var looping := input.Bytes(4);
    if looping.None? { return None; }
    r := hundredths;
  }

  /** The inner loop of `read`: the notes of one tick. */
  method LayersOf(input: LittleEndianInput, tick: int, before: map<int, seq<NbsNote>>)
    returns (r: Option<map<int, seq<NbsNote>>>)
    requires input.Valid()
    modifies input
    ensures input.Valid() && r.Some? == ReadLayers(old(input.Rest()), tick, before).Got?
    ensures r.Some? ==> ReadLayers(old(input.Rest()), tick, before) == Got(r.value, input.Rest())
  {
    var notes := before;
    ghost var whole := ReadLayers(input.Rest(), tick, before);
    while true
      invariant input.Valid()
      invariant ReadLayers(input.Rest(), tick, notes) == whole
      decreases |input.Rest()|
    {
      ghost var b := input.Rest();
      var jump := input.UnsignedShort();
      if jump.None? { return None; }
      if jump.value == 0 { return Some(notes); }
      var note := input.Bytes(6);
      if note.None? { return None; }
      assert note.value == b[2..8] && input.Rest() == b[8..];
      var instrument, key, velocity := note.value[0], note.value[1], note.value[2];
      if instrument < 16 && key >= 33 && key <= 57 && velocity > 0 {
        notes := notes[tick := (if tick in notes then notes[tick] else []) + [NbsNote(instrument, key, velocity)]];
      }
    }
  }

  lemma OneTickRead(b: seq<Byte>, tick: int, notes: map<int, seq<NbsNote>>)
    requires |b| >= 2 && Little(b[0], b[1]) != 0
    ensures var next := Wrap(tick + Little(b[0], b[1]));
            var more := ReadLayers(b[2..], next, notes);
            ReadTicks(b, tick, notes) == if more.Failed? then Failed else ReadTicks(more.rest, next, more.value)
  {
  }

  /** The outer loop of `read`. */
  method TicksOf(input: LittleEndianInput) returns (r: Option<map<int, seq<NbsNote>>>)
    requires input.Valid()
    modifies input
    ensures input.Valid() && r.Some? == ReadTicks(old(input.Rest()), -1, map[]).Got?
    ensures r.Some? ==> ReadTicks(old(input.Rest()), -1, map[]) == Got(r.value, input.Rest())
  {
    var notes: map<int, seq<NbsNote>> := map[];
    var tick := -1;
    ghost var whole := ReadTicks(input.Rest(), tick, notes);
    while true
      invariant input.Valid()
      invariant ReadTicks(input.Rest(), tick, notes) == whole
      decreases |input.Rest()|
    {
      var jump, more := NextTick(input, tick, notes);
      if jump == 0 { return more; }
      if more.None? { return None; }
      tick, notes := Wrap(tick + jump), more.value;
    }
  }

  /** One turn of the outer loop takes the bytes from b to rest: a jump, zero at the end of the song,
      and the notes after it, or an exception. */
  ghost predicate TurnRead(b: seq<Byte>, tick: int, notes: map<int, seq<NbsNote>>, jump: int,
                           more: Option<map<int, seq<NbsNote>>>, rest: seq<Byte>)
  {
    ReadTicks(b, tick, notes)
    == if more.None? then Failed else if jump == 0 then Got(more.value, rest)
          else ReadTicks(rest, Wrap(tick + jump), more.value)
  }

  method NextTick(input: LittleEndianInput, tick: int, notes: map<int, seq<NbsNote>>)
    returns (jump: int, more: Option<map<int, seq<NbsNote>>>)
    requires input.Valid()
    modifies input
    ensures input.Valid() && TurnRead(old(input.Rest()), tick, notes, jump, more, input.Rest())
    ensures more.Some? ==> |input.Rest()| < |old(input.Rest())|
  {
    ghost var b := input.Rest();
    var next := input.UnsignedShort();
    if next.None? {
      NoJump(b, tick, notes, input.Rest());
      return 0, None;
    }
    jump := next.value;
    ghost var c := input.Rest();
    if jump == 0 {
      LastJump(b, c, tick, notes);
      return 0, Some(notes);
    }
    more := LayersOf(input, Wrap(tick + jump), notes);
    AfterLayers(b, c, tick, notes, jump, more, input.Rest());
  }

  lemma NoJump(b: seq<Byte>, tick: int, notes: map<int, seq<NbsNote>>, rest: seq<Byte>)
    requires ReadU16(b).Failed?
    ensures TurnRead(b, tick, notes, 0, None, rest)
  {
  }

  lemma LastJump(b: seq<Byte>, c: seq<Byte>, tick: int, notes: map<int, seq<NbsNote>>)
    requires ReadU16(b) == Got(0, c)
    ensures TurnRead(b, tick, notes, 0, Some(notes), c) && |c| < |b|
  {
  }

  lemma AfterLayers(b: seq<Byte>, c: seq<Byte>, tick: int, notes: map<int, seq<NbsNote>>, jump: int,
                    more: Option<map<int, seq<NbsNote>>>, rest: seq<Byte>)
    requires jump != 0 && ReadU16(b) == Got(jump, c)
    requires more.Some? == ReadLayers(c, Wrap(tick + jump), notes).Got?
    requires more.Some? ==> ReadLayers(c, Wrap(tick + jump), notes) == Got(more.value, rest)
    ensures TurnRead(b, tick, notes, jump, more, rest) && (more.Some? ==> |rest| < |b|)
  {
    OneTickRead(b, tick, notes);
  }

  /** `NbsReader.read`, on any bytes: it fails exactly when the format does. */
  method Read(bytes: seq<Byte>) returns (song: Option<NbsFormat.NbsSong>)
    ensures song.Some? == ReadSong(bytes).Got?
    ensures song.Some? ==> ReadSong(bytes).value == song.value
  {
    var input := new LittleEndianInput(bytes);
    var length := FrontOf(input);
    if length.None? { return None; }
    var titles := TitlesOf(input);
    if titles.None? { return None; }
    var hundredths := SettingsOf(input);
    if hundredths.None? { return None; }
    var notes := TicksOf(input);
    if notes.None? { return None; }
    song := Some(NbsFormat.NbsSong(titles.value.title, titles.value.author, titles.value.description, length.value,
                                   hundredths.value, notes.value));
  }
}
