/** What a listener hears of a written song, from the composer's notes alone: when, in which order and with
    which sound. Numbers are written out. */
module NbsHearing {
  import opened Optional
  import opened NbsFormat
  import opened NbsRoundTrip

  // ---------------------------------------------------------------- numbers

  /** r is the integer nearest to x, the even one of two. */
  predicate Nearest(x: real, r: int) {
    && r as real - 0.5 <= x <= r as real + 0.5
    && (x == r as real - 0.5 || x == r as real + 0.5 ==> r % 2 == 0)
  }

  /** x rounded, and held between lo and hi. */
  predicate NearestWithin(x: real, lo: int, hi: int, r: int) {
    || (lo <= r <= hi && Nearest(x, r))
    || (r == lo && x < lo as real)
    || (r == hi && x > hi as real)
  }

  lemma RoundIsNearest(x: real, r: int)
    ensures Round(x) == r <==> Nearest(x, r)
  {
  }

  lemma ClampIsWithin(x: real, lo: int, hi: int, r: int)
    requires lo < hi
    ensures Clamp(lo, hi, Round(x)) == r <==> NearestWithin(x, lo, hi, r)
  {
    RoundIsNearest(x, r);
    RoundIsNearest(x, Round(x));
  }

  // ---------------------------------------------------------------- when, and in which layer

  /** A note is heard at the tick nearest to its start, ten ticks to the second; from the last half tick of
      fifteen minutes on, at the last tick. */
  predicate HeardAt(n: Note, t: int) {
    (t < 8999 && Nearest(10.0 * n.start, t)) || (t == 8999 && 10.0 * n.start > 8998.5)
  }

  /** The strings notes that come before note i at this tick. */
  ghost function StringsBefore(notes: seq<Note>, i: nat, t: int): set<nat>
    requires i <= |notes|
  {
    set j: nat | j < i && notes[j].instrument.Strings? && HeardAt(notes[j], t)
  }

  /** The layer of note i: strings share the first four, in order, and the other instruments have their own. */
  ghost predicate InLayer(notes: seq<Note>, i: nat, t: int, l: nat)
    requires i < |notes|
  {
    match notes[i].instrument
    case Strings =>
      var n := |StringsBefore(notes, i, t)|;
      (n < 3 && l == n) || (n >= 3 && l == 3)
    case Bass => l == 4
    case Harp => l == 5
    case Lute => l == 6
    case Flute => l == 7
    case Bell => l == 8
    case Chime => l == 8
    case Drum => l == 9
    case Snare => l == 9
    case Hat => l == 9
  }

  ghost predicate InPlace(notes: seq<Note>, i: nat, t: int, l: nat)
    requires i < |notes|
  {
    HeardAt(notes[i], t) && InLayer(notes, i, t, l)
  }

  lemma HeardAtTick(n: Note, t: int)
    ensures HeardAt(n, t) <==> TickOf(n) == t
  {
    assert n.start * 10.0 == 10.0 * n.start;
    RoundIsNearest(10.0 * n.start, t);
    RoundIsNearest(10.0 * n.start, Round(10.0 * n.start));
  }

  lemma {:induction false} StringsCounted(notes: seq<Note>, i: nat, t: int)
    requires i <= |notes|
    ensures StringsAt(notes, i, t) == |StringsBefore(notes, i, t)|
  {
    if i == 0 {
      assert StringsBefore(notes, 0, t) == {};
    } else {
      StringsCounted(notes, i - 1, t);
      HeardAtTick(notes[i - 1], t);
      var before, now := StringsBefore(notes, i - 1, t), StringsBefore(notes, i, t);
      assert now == if notes[i - 1].instrument.Strings? && HeardAt(notes[i - 1], t) then before + {i - 1} else before;
    }
  }

  lemma PlaceIsCell(notes: seq<Note>, i: nat, t: int, l: nat)
    requires i < |notes|
    ensures InPlace(notes, i, t, l) <==> InCell(notes, i, t, l)
  {
    HeardAtTick(notes[i], t);
    StringsCounted(notes, i, t);
  }

  // ---------------------------------------------------------------- with which sound

  /** The key: the pitch from A0 on, held within the piano, moved by whole octaves into the two octaves from
      33 to 57, and no further than it must. */
  predicate KeyFits(pitch: int, key: int) {
    var k := if pitch < 21 then 0 else if pitch > 108 then 87 else pitch - 21;
    && (key - k) % 12 == 0
    && (if k < 33 then 33 <= key < 45 else if k > 57 then 45 < key <= 57 else key == k)
  }

  predicate InstrumentFits(i: Instrument, number: int) {
    match i
    case Harp => number == 0
    case Strings => number == 0
    case Bass => number == 1
    case Drum => number == 2
    case Snare => number == 3
    case Hat => number == 4
    case Lute => number == 5
    case Flute => number == 6
    case Bell => number == 7
    case Chime => number == 8
  }

  predicate SoundsAs(n: Note, heard: NbsNote) {
    && InstrumentFits(n.instrument, heard.instrument) && KeyFits(n.pitch, heard.key)
    && NearestWithin(180.0 * n.velocity, 1, 100, heard.velocity)
  }

  lemma HeardSoundsAs(n: Note)
    ensures SoundsAs(n, Heard(n))
  {
    assert n.velocity * 180.0 == 180.0 * n.velocity;
    ClampIsWithin(180.0 * n.velocity, 1, 100, Velocity(n));
  }

  /** The bytes of a note: its sound, its place between the ears, and no detuning. */
  lemma PrintedNote(n: Note)
    ensures var b := PrintNote(n);
            && |b| == 6 && SoundsAs(n, NbsNote(b[0], b[1], b[2]))
            && NearestWithin(100.0 + 80.0 * n.pan, 0, 200, b[3]) && b[4] == 0 && b[5] == 0
  {
    HeardSoundsAs(n);
    assert n.pan * 80.0 == 80.0 * n.pan;
    ClampIsWithin(100.0 + 80.0 * n.pan, 0, 200, Panning(n));
  }

  // ---------------------------------------------------------------- what is heard of each note

  /** Note i is the strongest in its place, and the first of equals. */
  ghost predicate Outsounds(notes: seq<Note>, i: nat, t: int, l: nat)
    requires i < |notes|
  {
    && InPlace(notes, i, t, l)
    && (forall j: nat | j < |notes| && InPlace(notes, j, t, l) :: notes[j].velocity <= notes[i].velocity)
    && (forall j: nat | j < i && InPlace(notes, j, t, l) :: notes[j].velocity < notes[i].velocity)
  }

  lemma OutsoundsWins(notes: seq<Note>, i: nat, t: int, l: nat)
    requires i < |notes|
    ensures Outsounds(notes, i, t, l) <==> Wins(notes, |notes|, i, t, l)
  {
    forall j: nat | j < |notes| ensures InPlace(notes, j, t, l) <==> InCell(notes, j, t, l) {
      PlaceIsCell(notes, j, t, l);
    }
  }

  ghost predicate Occupied(notes: seq<Note>, t: int, l: nat) {
    exists j: nat :: j < |notes| && InPlace(notes, j, t, l)
  }

  /** The layers below l in which something is heard at this tick. */
  ghost function LayersBelow(notes: seq<Note>, t: int, l: nat): set<nat> {
    set k: nat | k < l && Occupied(notes, t, k)
  }

  lemma SomeoneInPlace(notes: seq<Note>, t: nat, l: nat)
    requires t < LENGTH_TICKS && l < LAYERS
    ensures GridOf(notes)[t][l].Some? <==> Occupied(notes, t, l)
  {
    RowAt(notes, t, l);
    CellHoldsStrongest(notes, t, l);
    forall j: nat | j < |notes| ensures InPlace(notes, j, t, l) <==> InCell(notes, j, t, l) {
      PlaceIsCell(notes, j, t, l);
    }
  }

  lemma SoundingSnoc(cells: seq<Option<Note>>, l: nat)
    requires l < |cells|
    ensures Sounding(cells[..l + 1]) == Sounding(cells[..l]) + if cells[l].Some? then 1 else 0
    decreases cells
  {
    if l == 0 {
      assert cells[..1][1..] == [] && cells[..1][0] == cells[0];
    } else {
      SoundingSnoc(cells[1..], l - 1);
      assert cells[..l + 1][1..] == cells[1..][..l] && cells[..l][1..] == cells[1..][..l - 1];
    }
  }

  lemma {:induction false} SoundingIsLayers(notes: seq<Note>, t: nat, l: nat)
    requires t < LENGTH_TICKS && l <= LAYERS
    ensures Sounding(GridOf(notes)[t][..l]) == |LayersBelow(notes, t, l)|
  {
    if l == 0 {
      assert LayersBelow(notes, t, 0) == {};
    } else {
      SoundingIsLayers(notes, t, l - 1);
      SomeoneInPlace(notes, t, l - 1);
      SoundingSnoc(GridOf(notes)[t], l - 1);
      var before, now := LayersBelow(notes, t, l - 1), LayersBelow(notes, t, l);
      assert now == if GridOf(notes)[t][l - 1].Some? then before + {l - 1} else before;
    }
  }

  /** A song as its composer wrote it: nothing starts before the song. */
  predicate Composed(h: Header, notes: seq<Note>) {
    && |h.title| <= 1_048_576 && |h.author| <= 1_048_576 && |h.description| <= 1_048_576
    && |notes| < 4_294_967_296 && forall n | n in notes :: n.start >= 0.0
  }

  /** Of each place the strongest note is heard, after those of the lower layers and nothing else; and where
      no note falls there is silence. */
  ghost predicate NotesHeard(notes: seq<Note>, byTick: map<int, seq<NbsNote>>) {
    && (forall t :: t in byTick <==> exists i: nat :: i < |notes| && HeardAt(notes[i], t))
    && (forall t | t in byTick :: |byTick[t]| == |LayersBelow(notes, t, 10)|)
    && (forall i: nat, t, l: nat | i < |notes| && Outsounds(notes, i, t, l) ::
          && t in byTick && |LayersBelow(notes, t, l)| < |byTick[t]|
          && SoundsAs(notes[i], byTick[t][|LayersBelow(notes, t, l)|]))
  }

  ghost predicate SongHeard(h: Header, notes: seq<Note>, song: NbsFormat.NbsSong) {
    && song.title == h.title && song.author == h.author && song.description == h.description
    && song.lengthTicks == 9000 && song.hundredthsPerSecond == 1000 && NotesHeard(notes, song.notesByTick)
  }

  lemma NoteHeard(notes: seq<Note>, i: nat, t: int, l: nat)
    requires i < |notes| && Outsounds(notes, i, t, l) && 0 <= t < LENGTH_TICKS && l < LAYERS
    ensures var byTick := NotesBelow(GridOf(notes), LENGTH_TICKS);
            && t in byTick && |LayersBelow(notes, t, l)| < |byTick[t]|
            && SoundsAs(notes[i], byTick[t][|LayersBelow(notes, t, l)|])
  {
    OutsoundsWins(notes, i, t, l);
    CellIsHeard(notes, t, l, i);
    SoundingIsLayers(notes, t, l);
    var byTick := NotesBelow(GridOf(notes), LENGTH_TICKS);
    var place := Sounding(GridOf(notes)[t][..l]);
    var k :| 0 <= k < |notes| && Wins(notes, |notes|, k, t, l) && byTick[t][place] == Heard(notes[k]);
    OneWinner(notes, i, k, t, l);
    HeardSoundsAs(notes[i]);
  }

  lemma OneWinner(notes: seq<Note>, i: nat, k: nat, t: int, l: nat)
    requires i < |notes| && k < |notes| && Wins(notes, |notes|, i, t, l) && Wins(notes, |notes|, k, t, l)
    ensures i == k
  {
  }

  /** A tick is on the song's list exactly when some note is heard at it, with one entry for each layer. */
  lemma TickListed(notes: seq<Note>, t: int)
    requires forall n | n in notes :: n.start >= 0.0
    ensures var byTick := NotesBelow(GridOf(notes), LENGTH_TICKS);
            && (t in byTick <==> exists i: nat :: i < |notes| && HeardAt(notes[i], t))
            && (t in byTick ==> |byTick[t]| == |LayersBelow(notes, t, 10)|)
  {
    if 0 <= t < LENGTH_TICKS {
      var row := GridOf(notes)[t];
      SoundingIsLayers(notes, t, 10);
      RowSplits(row, 10);
      assert row[..10] == row;
      assert t in NotesBelow(GridOf(notes), LENGTH_TICKS) <==> LayersBelow(notes, t, 10) != {};
      SomeLayer(notes, t);
    } else {
      forall i: nat | i < |notes| ensures !HeardAt(notes[i], t) {
        assert notes[i] in notes;
        TickIsNatural(notes[i]);
        HeardAtTick(notes[i], t);
      }
    }
  }

  lemma SomeLayer(notes: seq<Note>, t: int)
    ensures LayersBelow(notes, t, 10) != {} <==> exists i: nat :: i < |notes| && HeardAt(notes[i], t)
  {
    if i: nat :| i < |notes| && HeardAt(notes[i], t) {
      var l := LayerOf(notes, i);
      HeardAtTick(notes[i], t);
      PlaceIsCell(notes, i, t, l);
      assert l in LayersBelow(notes, t, 10);
    }
    if l :| l in LayersBelow(notes, t, 10) {
      assert Occupied(notes, t, l);
    }
  }

  lemma EveryNoteHeard(notes: seq<Note>)
    requires forall n | n in notes :: n.start >= 0.0
    ensures NotesHeard(notes, NotesBelow(GridOf(notes), LENGTH_TICKS))
  {
    var byTick := NotesBelow(GridOf(notes), LENGTH_TICKS);
    forall t
      ensures t in byTick <==> exists i: nat :: i < |notes| && HeardAt(notes[i], t)
      ensures t in byTick ==> |byTick[t]| == |LayersBelow(notes, t, 10)|
    {
      TickListed(notes, t);
    }
    forall i: nat, t, l: nat | i < |notes| && Outsounds(notes, i, t, l)
      ensures t in byTick && |LayersBelow(notes, t, l)| < |byTick[t]|
              && SoundsAs(notes[i], byTick[t][|LayersBelow(notes, t, l)|])
    {
      assert notes[i] in notes;
      TickIsNatural(notes[i]);
      HeardAtTick(notes[i], t);
      NoteHeard(notes, i, t, l);
    }
  }

  /** Every song without early starts is printed, read back, and heard as it was composed: each note that is
      the strongest in its place, at the tick nearest to its start, with its own instrument, key and
      strength. */
  lemma SongIsHeard(h: Header, notes: seq<Note>)
    requires Composed(h, notes)
    ensures Printable(h, notes)
    ensures ReadSong(PrintSong(h, notes)).Got? && SongHeard(h, notes, ReadSong(PrintSong(h, notes)).value)
  {
    NonNegativeStarts(h, notes);
    RoundTrip(h, notes);
    EveryNoteHeard(notes);
  }

  // ---------------------------------------------------------------- the bytes of any song

  /** The numbers of two and of four bytes, low byte first. */
  function Short(b: seq<Byte>): int
    requires |b| >= 2
  {
    (b[0] as int) + 256 * (b[1] as int)
  }

  function Long(b: seq<Byte>): int
    requires |b| >= 4
  {
    (b[0] as int) + 256 * (b[1] as int) + 65536 * (b[2] as int) + 16777216 * (b[3] as int)
  }

  /** A song of version 4 or 5. */
  predicate Modern(b: seq<Byte>) {
    |b| >= 8 && b[0] == 0 && b[1] == 0 && (b[2] == 4 || b[2] == 5)
  }

  lemma FrontIs(b: seq<Byte>)
    ensures ReadFront(b) == if Modern(b) then Got(Short(b[4..]), b[8..]) else Failed
  {
    if |b| >= 8 {
      assert b[2..][1..] == b[3..] && b[3..][1..] == b[4..] && b[4..][2..] == b[6..] && b[6..][2..] == b[8..];
    }
  }

  lemma StringIs(b: seq<Byte>)
    ensures ReadStr(b) == if |b| >= 4 && Long(b) <= 1_048_576 && 4 + Long(b) <= |b|
                          then Got(b[4..4 + Long(b)], b[4 + Long(b)..]) else Failed
    ensures |b| >= 4 && 4 + Long(b) <= |b| ==> b[4..] == b[4..4 + Long(b)] + b[4 + Long(b)..]
  {
    if |b| >= 4 && Long(b) <= |b| - 4 {
      assert b[4..][..Long(b)] == b[4..4 + Long(b)] && b[4..][Long(b)..] == b[4 + Long(b)..];
    }
  }

  lemma TitlesBounded(b: seq<Byte>)
    requires ReadTitles(b).Got?
    ensures var h := ReadTitles(b).value;
            |h.title| <= 1_048_576 && |h.author| <= 1_048_576 && |h.description| <= 1_048_576
  {
    StringIs(b);
    StringIs(ReadStr(b).rest);
    StringIs(ReadStr(ReadStr(b).rest).rest);
    StringIs(ReadStr(ReadStr(ReadStr(b).rest).rest).rest);
  }

  lemma TempoBounded(b: seq<Byte>)
    requires ReadSettings(b).Got?
    ensures |b| >= 2 && ReadSettings(b).value == Short(b) && 1 <= Short(b) <= 2000
  {
  }

  lemma PrintedStart(h: Header, notes: seq<Note>)
    requires Printable(h, notes)
    ensures |PrintSong(h, notes)| >= 8 && PrintSong(h, notes)[..8] == [0, 0, 5, 16, 40, 35, 10, 0]
  {
    PrintedFront();
    StartsWith(PrintFront(), PrintTitles(h) + (PrintSettings(|notes|) + (EarlyTick(notes) + PrintRest(notes))));
  }

  lemma StartsWith(front: seq<Byte>, rest: seq<Byte>)
    ensures (front + rest)[..|front|] == front
  {
  }

  /** Numbers are written low byte first. */
  lemma LowByteFirst(x: int)
    requires 0 <= x < 0x1_0000_0000
    ensures x < 0x1_0000 ==> U16(x) == [x % 256, x / 256]
    ensures U32(x) == [x % 256, x / 256 % 256, x / 65536 % 256, x / 16777216]
  {
    LowIsRemainder(x);
    LowIsRemainder(x / 256);
    LowIsRemainder(x / 256 / 256);
  }

  lemma LowIsRemainder(x: nat)
    ensures Low(x) == x % 256 && High(x) == x / 256
  {
  }

  /** A song in version 5 with 16 instruments, 9000 ticks and 10 layers. */
  lemma PrintedFront()
    ensures PrintFront() == [0, 0, 5, 16, 40, 35, 10, 0]
  {
    LowByteFirst(9000);
    LowByteFirst(10);
    LowByteFirst(0);
  }

  /** A string is its length in four bytes and its bytes. */
  function Text(s: seq<Byte>): seq<Byte>
    requires |s| < 0x1_0000_0000
  {
    [|s| % 256, |s| / 256 % 256, |s| / 65536 % 256, |s| / 16777216] + s
  }

  lemma StrIsText(s: seq<Byte>)
    requires |s| < 0x1_0000_0000
    ensures Str(s) == Text(s)
  {
    LowByteFirst(|s|);
  }

  /** The title, the author, the author of the original, who is the same, and the description. */
  lemma PrintedTitles(h: Header)
    requires |h.title| < 0x1_0000_0000 && |h.author| < 0x1_0000_0000 && |h.description| < 0x1_0000_0000
    ensures PrintTitles(h) == Text(h.title) + Text(h.author) + Text(h.author) + Text(h.description)
  {
    StrIsText(h.title);
    StrIsText(h.author);
    StrIsText(h.description);
  }

  /** Ten ticks per second, no autosave every ten minutes, four beats to the bar; no editing time nor clicks,
      so many blocks placed, none broken; the name of the MIDI file; and it loops forever from the start. */
  lemma PrintedSettings(n: int)
    requires 0 <= n < 0x1_0000_0000
    ensures PrintSettings(n)
         == [232, 3, 0, 10, 4] + [0, 0, 0, 0, 0, 0, 0, 0, 0, 0, 0, 0]
            + [n % 256, n / 256 % 256, n / 65536 % 256, n / 16777216] + [0, 0, 0, 0]
            + Text(Ascii("monkeycraft_nexus_awaits.mid")) + [1, 0, 0, 0]
  {
    LowByteFirst(1000);
    LowByteFirst(0);
    LowByteFirst(n);
    StrIsText(Ascii(MIDI_NAME));
  }

  /** A layer's name, unlocked, at full volume and in the middle. */
  function Layer(name: string): seq<Byte>
    requires |name| < 0x1_0000
  {
    Text(Ascii(name)) + [0, 100, 100]
  }

  /** The layers one after another, and then no custom instruments. */
  lemma LayersFrom(names: seq<string>, k: nat)
    requires k <= |names| && forall n | n in names :: |n| < 0x1_0000
    ensures PrintLayers(names[k..])
         == if k == |names| then [0] else Layer(names[k]) + PrintLayers(names[k + 1..])
  {
    if k < |names| {
      assert names[k..][1..] == names[k + 1..];
      StrIsText(Ascii(names[k]));
    }
  }

  lemma PrintedLayers(k: nat)
    requires k < 10
    ensures LAYER_NAMES == ["Strings - low", "Strings - middle I", "Strings - middle II", "Strings - high",
                            "Deep drone", "Harp", "Lute", "Flute", "Bells", "Pulse"]
    ensures PrintLayers(LAYER_NAMES[k..]) == Layer(LAYER_NAMES[k]) + PrintLayers(LAYER_NAMES[k + 1..])
    ensures PrintLayers(LAYER_NAMES[10..]) == [0]
  {
    LayersFrom(LAYER_NAMES, k);
    LayersFrom(LAYER_NAMES, 10);
  }

  /** Of one layer of a tick the reader keeps the note if and only if it is playable. */
  lemma NoteIsKept(b: seq<Byte>, tick: int, notes: map<int, seq<NbsNote>>)
    requires |b| >= 8 && (b[0] != 0 || b[1] != 0)
    ensures var known := if tick in notes then notes[tick] else [];
            ReadLayers(b, tick, notes)
            == ReadLayers(b[8..], tick,
                          if b[2] < 16 && 33 <= b[3] <= 57 && 1 <= b[4]
                          then notes[tick := known + [NbsNote(b[2], b[3], b[4])]] else notes)
  {
  }

  ghost predicate AllPlayable(notes: map<int, seq<NbsNote>>) {
    forall t, n | t in notes && n in notes[t] ::
      0 <= n.instrument < 16 && 33 <= n.key <= 57 && 1 <= n.velocity <= 255
  }

  lemma LayersPlayable(b: seq<Byte>, tick: int, notes: map<int, seq<NbsNote>>)
    requires AllPlayable(notes) && ReadLayers(b, tick, notes).Got?
    ensures AllPlayable(ReadLayers(b, tick, notes).value)
    decreases |b|
  {
    if Little(b[0], b[1]) != 0 {
      LayersPlayable(b[8..], tick, AddNote(notes, tick, NbsNote(b[2], b[3], b[4])));
    }
  }

  lemma {:induction false} TicksPlayable(b: seq<Byte>, tick: int, notes: map<int, seq<NbsNote>>)
    requires AllPlayable(notes) && ReadTicks(b, tick, notes).Got?
    ensures AllPlayable(ReadTicks(b, tick, notes).value)
    decreases |b|
  {
    if Little(b[0], b[1]) != 0 {
      var next := Wrap(tick + Little(b[0], b[1]));
      LayersPlayable(b[2..], next, notes);
      TicksPlayable(ReadLayers(b[2..], next, notes).rest, next, ReadLayers(b[2..], next, notes).value);
    }
  }

  /** Whatever bytes are read: they are a song of version 4 or 5, its tempo is at most 20 ticks per second,
      its strings are at most a mebibyte long, and every note kept is playable. */
  lemma SongsRead(b: seq<Byte>)
    requires ReadSong(b).Got?
    ensures var song := ReadSong(b).value;
            && Modern(b) && song.lengthTicks == Short(b[4..]) && 1 <= song.hundredthsPerSecond <= 2000
            && |song.title| <= 1_048_576 && |song.author| <= 1_048_576 && |song.description| <= 1_048_576
            && AllPlayable(song.notesByTick)
  {
    FrontIs(b);
    var titles := ReadFront(b).rest;
    TitlesBounded(titles);
    var settings := ReadTitles(titles).rest;
    TempoBounded(settings);
    TicksPlayable(ReadSettings(settings).rest, -1, map[]);
  }
}
