/** The lobby radio's clock (LobbyRadio.java), in exact arithmetic: a song of h hundredths of a
    tick per second advances by h/2000 of a tick each server tick, and the accumulator counts in
    units of 1/2000. */
module LobbyRadio {
  datatype Song = Song(lengthTicks: nat, hundredths: nat)

  const UNIT := 2000

  /** The tempo range is the reader's. */
  predicate Playable(songs: seq<Song>) {
    songs != [] && forall s | s in songs :: 1 <= s.hundredths <= UNIT
  }

  datatype Play = Play(song: nat, tick: nat)

  datatype Radio = Radio(songIndex: nat, songTick: nat, gapRemaining: nat, accumulator: nat, played: seq<Play>)

  predicate Tuned(r: Radio, songs: seq<Song>) {
    Playable(songs) && r.songIndex < |songs| && r.accumulator < UNIT
  }

  function AtLeastOne(n: nat): nat {
    if n == 0 then 1 else n
  }

  /** `advanceSong`. */
  function Advanced(r: Radio, songs: seq<Song>): Radio
    requires songs != []
  {
    Radio((r.songIndex + 1) % |songs|, 0, 0, 0, r.played)
  }

  /** The playing loop: note ticks that are due, up to the end of the song. */
  function PlayDue(r: Radio, songs: seq<Song>, gap: nat): Radio
    requires r.songIndex < |songs|
    decreases r.accumulator
  {
    if r.accumulator < UNIT then r
    else
      var length := songs[r.songIndex].lengthTicks;
      var next := r.(played := r.played + [Play(r.songIndex, r.songTick)], songTick := r.songTick + 1,
                     accumulator := r.accumulator - UNIT);
      if next.songTick >= length then next.(songTick := length, gapRemaining := AtLeastOne(gap), accumulator := 0)
      else PlayDue(next, songs, gap)
  }

  /** `serverTick`. */
  function Tick(r: Radio, songs: seq<Song>, gap: nat): (r': Radio)
    requires Tuned(r, songs)
    ensures Tuned(r', songs)
  {
    if r.gapRemaining > 0 then
      if r.gapRemaining == 1 then Advanced(r, songs) else r.(gapRemaining := r.gapRemaining - 1)
    else
      PlayDueStops(r.(accumulator := r.accumulator + songs[r.songIndex].hundredths), songs, gap);
      PlayDue(r.(accumulator := r.accumulator + songs[r.songIndex].hundredths), songs, gap)
  }

  lemma {:induction false} PlayDueStops(r: Radio, songs: seq<Song>, gap: nat)
    requires r.songIndex < |songs|
    ensures var r' := PlayDue(r, songs, gap);
            r'.songIndex == r.songIndex && r'.accumulator < UNIT
    decreases r.accumulator
  {
    if r.accumulator >= UNIT {
      PlayDueStops(r.(played := r.played + [Play(r.songIndex, r.songTick)], songTick := r.songTick + 1,
                      accumulator := r.accumulator - UNIT), songs, gap);
    }
  }

  function Ticks(r: Radio, songs: seq<Song>, gap: nat, k: nat): (r': Radio)
    requires Tuned(r, songs)
    ensures Tuned(r', songs)
  {
    if k == 0 then r else Tick(Ticks(r, songs, gap, k - 1), songs, gap)
  }

  /** What one server tick does. In a gap it counts down, and at the end of it the next song of the list
      begins. In a song it adds the song's tempo; when that makes a whole song tick, 2000 units, the tick's
      notes are played, and after the last tick there is a gap of at least one server tick. */
  ghost predicate Sounds(r: Radio, songs: seq<Song>, gap: nat, r': Radio)
    requires r.songIndex < |songs|
  {
    var song, now := songs[r.songIndex], [Play(r.songIndex, r.songTick)];
    var due := r.accumulator + song.hundredths;
    if r.gapRemaining > 1 then r' == r.(gapRemaining := r.gapRemaining - 1)
    else if r.gapRemaining == 1 then r' == Radio((r.songIndex + 1) % |songs|, 0, 0, 0, r.played)
    else if due < 2000 then r' == r.(accumulator := due)
    else if r.songTick + 1 < song.lengthTicks then
      r' == Radio(r.songIndex, r.songTick + 1, 0, due - 2000, r.played + now)
    else r' == Radio(r.songIndex, song.lengthTicks, if gap == 0 then 1 else gap, 0, r.played + now)
  }

  lemma TickSounds(r: Radio, songs: seq<Song>, gap: nat)
    requires Tuned(r, songs)
    ensures Sounds(r, songs, gap, Tick(r, songs, gap))
  {
    if r.gapRemaining == 0 { OneTick(r, songs, gap); }
  }

  // ---------------------------------------------------------------- the radio

  class LobbyRadio {
    const songs: seq<Song>
    const gapServerTicks: nat
    var songIndex: nat
    var songTick: nat
    var gapRemaining: nat
    var tickAccumulator: nat
    ghost var played: seq<Play>

    ghost function Now(): Radio
      reads this
    {
      Radio(songIndex, songTick, gapRemaining, tickAccumulator, played)
    }

    constructor (songs: seq<Song>, gapSeconds: int)
      requires Playable(songs)
      ensures this.songs == songs && gapServerTicks == if gapSeconds < 0 then 0 else gapSeconds * 20
      ensures Now() == Radio(0, 0, 0, 0, [])
    {
      this.songs := songs;
      gapServerTicks := if gapSeconds * 20 < 0 then 0 else gapSeconds * 20;
      songIndex, songTick, gapRemaining, tickAccumulator, played := 0, 0, 0, 0, [];
    }

    method AdvanceSong()
      requires songs != []
      modifies this
      ensures Now() == Advanced(old(Now()), songs)
    {
      songIndex := (songIndex + 1) % |songs|;
      songTick := 0;
      gapRemaining := 0;
      tickAccumulator := 0;
    }

    method Skip()
      requires songs != []
      modifies this
      ensures Now() == Advanced(old(Now()), songs)
      ensures AtStart(Now()) && played == old(played) && songIndex == (old(songIndex) + 1) % |songs|
    {
      AdvanceSong();
    }

    method ServerTick()
      requires Tuned(Now(), songs)
      modifies this
      ensures Now() == Tick(old(Now()), songs, gapServerTicks)
      ensures Sounds(old(Now()), songs, gapServerTicks, Now())
    {
      TickSounds(Now(), songs, gapServerTicks);
      if gapRemaining > 0 {
        gapRemaining := gapRemaining - 1;
        if gapRemaining == 0 { AdvanceSong(); }
        return;
      }
      var song := songs[songIndex];
      tickAccumulator := tickAccumulator + song.hundredths;
      ghost var started := Now();
      while tickAccumulator >= UNIT
        invariant songIndex == started.songIndex && songIndex < |songs|
        invariant PlayDue(Now(), songs, gapServerTicks) == PlayDue(started, songs, gapServerTicks)
        decreases tickAccumulator
      {
        played := played + [Play(songIndex, songTick)];
        songTick := songTick + 1;
        tickAccumulator := tickAccumulator - UNIT;
        if songTick >= song.lengthTicks {
          songTick := song.lengthTicks;
          gapRemaining := if gapServerTicks < 1 then 1 else gapServerTicks;
          tickAccumulator := 0;
          return;
        }
      }
    }
  }

  // ---------------------------------------------------------------- timing without drift

  /** Plays of ticks 0..n-1 of a song, in order. */
  function InOrder(song: nat, n: nat): seq<Play> {
    seq(n, t requires 0 <= t < n => Play(song, t))
  }

  predicate AtStart(r: Radio) {
    r.songTick == 0 && r.gapRemaining == 0 && r.accumulator == 0
  }

  /** A song of no ticks still plays its tick 0. */
  function Plays(songs: seq<Song>, i: nat): nat
    requires i < |songs|
  {
    AtLeastOne(songs[i].lengthTicks)
  }

  lemma OneTick(r: Radio, songs: seq<Song>, gap: nat)
    requires Tuned(r, songs) && r.gapRemaining == 0
    ensures var due := r.accumulator + songs[r.songIndex].hundredths;
            var r' := Tick(r, songs, gap);
            if due < UNIT then r' == r.(accumulator := due)
            else if r.songTick + 1 < songs[r.songIndex].lengthTicks then
              r' == r.(accumulator := due - UNIT, songTick := r.songTick + 1,
                       played := r.played + [Play(r.songIndex, r.songTick)])
            else
              r' == Radio(r.songIndex, songs[r.songIndex].lengthTicks, AtLeastOne(gap), 0,
                          r.played + [Play(r.songIndex, r.songTick)])
  {
    assert songs[r.songIndex] in songs;
    var due := r.accumulator + songs[r.songIndex].hundredths;
    if due >= UNIT {
      var next := r.(accumulator := due - UNIT, songTick := r.songTick + 1,
                     played := r.played + [Play(r.songIndex, r.songTick)]);
      assert PlayDue(next, songs, gap) == next;
    }
  }

  lemma Quotient(x: nat, q: nat, a: nat)
    requires x == UNIT * q + a && a < UNIT
    ensures q == x / UNIT && a == x % UNIT
  {
  }

  lemma Multiply(k: nat, h: nat)
    requires k > 0
    ensures k * h == (k - 1) * h + h
  {
  }

  /** k server ticks into a song, while it lasts, tick floor(k h / 2000) is next and all before it
      have been played once, in order: the rounding of one tick never carries into the next. */
  lemma {:induction false} NoDrift(r: Radio, songs: seq<Song>, gap: nat, k: nat)
    requires Tuned(r, songs) && AtStart(r)
    requires k * songs[r.songIndex].hundredths < 2000 * Plays(songs, r.songIndex)
    ensures var due := k * songs[r.songIndex].hundredths;
            Ticks(r, songs, gap, k)
            == Radio(r.songIndex, due / 2000, 0, due % 2000, r.played + InOrder(r.songIndex, due / 2000))
  {
    var h := songs[r.songIndex].hundredths;
    if k == 0 {
      assert r.played + InOrder(r.songIndex, 0) == r.played;
    } else {
      Multiply(k, h);
      NoDrift(r, songs, gap, k - 1);
      var before := Ticks(r, songs, gap, k - 1);
      OneTick(before, songs, gap);
      var due := before.accumulator + h;
      if due < UNIT {
        Quotient(k * h, before.songTick, due);
      } else {
        Quotient(k * h, before.songTick + 1, due - UNIT);
        assert r.played + InOrder(r.songIndex, before.songTick) + [Play(r.songIndex, before.songTick)]
            == r.played + InOrder(r.songIndex, before.songTick + 1);
      }
    }
  }

  /** The server ticks a song takes: the least k with k h >= 2000 times its ticks. */
  function Duration(songs: seq<Song>, i: nat): nat
    requires Playable(songs) && i < |songs|
  {
    (UNIT * Plays(songs, i) + songs[i].hundredths - 1) / songs[i].hundredths
  }

  lemma CeilingBounds(total: nat, h: nat)
    requires h > 0 && total > 0
    ensures var d := (total + h - 1) / h;
            d > 0 && (d - 1) * h < total <= d * h
  {
    var d := (total + h - 1) / h;
    assert total + h - 1 == d * h + (total + h - 1) % h;
    assert (d - 1) * h == d * h - h;
    assert d != 0 || d * h == 0;
  }

  /** After its duration a song has played every tick once and the radio is silent for the gap. */
  lemma SongEnds(r: Radio, songs: seq<Song>, gap: nat)
    requires Tuned(r, songs) && AtStart(r)
    ensures Ticks(r, songs, gap, Duration(songs, r.songIndex))
         == Radio(r.songIndex, songs[r.songIndex].lengthTicks, AtLeastOne(gap), 0,
                  r.played + InOrder(r.songIndex, Plays(songs, r.songIndex)))
  {
    var h, n, d := songs[r.songIndex].hundredths, Plays(songs, r.songIndex), Duration(songs, r.songIndex);
    CeilingBounds(UNIT * n, h);
    NoDrift(r, songs, gap, d - 1);
    Multiply(d, h);
    var before := Ticks(r, songs, gap, d - 1);
    Quotient((d - 1) * h, n - 1, (d - 1) * h - UNIT * (n - 1));
    OneTick(before, songs, gap);
    assert r.played + InOrder(r.songIndex, n - 1) + [Play(r.songIndex, n - 1)] == r.played + InOrder(r.songIndex, n);
  }

  lemma {:induction false} TicksAdd(r: Radio, songs: seq<Song>, gap: nat, a: nat, b: nat)
    requires Tuned(r, songs)
    ensures Ticks(r, songs, gap, a + b) == Ticks(Ticks(r, songs, gap, a), songs, gap, b)
  {
    if b > 0 { TicksAdd(r, songs, gap, a, b - 1); }
  }

  lemma {:induction false} GapPasses(r: Radio, songs: seq<Song>, gap: nat, k: nat)
    requires Tuned(r, songs) && k <= r.gapRemaining
    ensures Ticks(r, songs, gap, k)
         == if k > 0 && k == r.gapRemaining then Advanced(r, songs) else r.(gapRemaining := r.gapRemaining - k)
  {
    if k > 0 { GapPasses(r, songs, gap, k - 1); }
  }

  /** One whole song: from its start, its duration and max(1, gap) silent server ticks later the
      next song starts, and exactly its ticks have been played, each once and in order. */
  lemma SongThenGap(r: Radio, songs: seq<Song>, gap: nat, d: nat)
    requires Tuned(r, songs) && AtStart(r) && d == Duration(songs, r.songIndex)
    ensures Ticks(r, songs, gap, d + AtLeastOne(gap))
         == Advanced(r.(played := r.played + InOrder(r.songIndex, Plays(songs, r.songIndex))), songs)
  {
    SongEnds(r, songs, gap);
    AfterGap(r, songs, gap, d);
  }

  lemma AfterGap(r: Radio, songs: seq<Song>, gap: nat, d: nat)
    requires Tuned(r, songs) && Ticks(r, songs, gap, d).gapRemaining == AtLeastOne(gap)
    ensures Ticks(r, songs, gap, d + AtLeastOne(gap)) == Advanced(Ticks(r, songs, gap, d), songs)
  {
    TicksAdd(r, songs, gap, d, AtLeastOne(gap));
    GapPasses(Ticks(r, songs, gap, d), songs, gap, AtLeastOne(gap));
  }

  /** A song takes the least number of server ticks in which its tempo makes 2000 units for each of its
      ticks, and for at least one. */
  lemma DurationMeans(songs: seq<Song>, i: nat)
    requires Playable(songs) && i < |songs|
    ensures var d, h, n := Duration(songs, i), songs[i].hundredths, songs[i].lengthTicks;
            d > 0 && (d - 1) * h < 2000 * (if n == 0 then 1 else n) <= d * h
  {
    assert songs[i] in songs;
    CeilingBounds(UNIT * Plays(songs, i), songs[i].hundredths);
  }

  /** The programme goes round the list: after each song comes the one after it, and after the last the
      first. Song n + 1 starts when song n and its gap of at least one server tick are over, and song n has
      then been played from its first tick to its last. */
  lemma ProgrammeMeans(songs: seq<Song>, gap: nat, i: nat, n: nat)
    requires Playable(songs) && i < |songs|
    ensures Nth(songs, i, 0) == i && StartTime(songs, gap, i, 0) == 0 && Programme(songs, i, 0) == []
    ensures var j := Nth(songs, i, n);
            var plays := if songs[j].lengthTicks == 0 then 1 else songs[j].lengthTicks;
            && Nth(songs, i, n + 1) == (if j + 1 < |songs| then j + 1 else 0)
            && StartTime(songs, gap, i, n + 1)
               == StartTime(songs, gap, i, n) + Duration(songs, j) + (if gap == 0 then 1 else gap)
            && Programme(songs, i, n + 1)
               == Programme(songs, i, n) + seq(plays, t requires 0 <= t < plays => Play(j, t))
  {
    RoundTheList(Nth(songs, i, n), |songs|);
  }

  lemma RoundTheList(j: nat, m: nat)
    requires j < m
    ensures (j + 1) % m == if j + 1 < m then j + 1 else 0
  {
    if j + 1 == m { assert m == 1 * m + 0; }
  }

  /** The n-th song after song i, going round the list. */
  function Nth(songs: seq<Song>, i: nat, n: nat): (j: nat)
    requires i < |songs|
    ensures j < |songs|
  {
    if n == 0 then i else (Nth(songs, i, n - 1) + 1) % |songs|
  }

  /** When the n-th song starts, counting from song i, and what has been played by then. */
  function StartTime(songs: seq<Song>, gap: nat, i: nat, n: nat): nat
    requires Playable(songs) && i < |songs|
  {
    if n == 0 then 0
    else StartTime(songs, gap, i, n - 1) + (Duration(songs, Nth(songs, i, n - 1)) + AtLeastOne(gap))
  }

  function Programme(songs: seq<Song>, i: nat, n: nat): seq<Play>
    requires i < |songs|
  {
    if n == 0 then []
    else Programme(songs, i, n - 1) + InOrder(Nth(songs, i, n - 1), Plays(songs, Nth(songs, i, n - 1)))
  }

  /** The whole programme: n songs after one that starts, in the list's order and round again, every
      song has played exactly its ticks and the next one starts on time. */
  lemma {:induction false} WholeProgramme(r: Radio, songs: seq<Song>, gap: nat, n: nat)
    requires Tuned(r, songs) && AtStart(r)
    ensures Ticks(r, songs, gap, StartTime(songs, gap, r.songIndex, n))
         == Radio(Nth(songs, r.songIndex, n), 0, 0, 0, r.played + Programme(songs, r.songIndex, n))
  {
    if n == 0 {
      assert r.played + [] == r.played;
    } else {
      WholeProgramme(r, songs, gap, n - 1);
      var t := StartTime(songs, gap, r.songIndex, n - 1);
      var mid := Ticks(r, songs, gap, t);
      OneMoreSong(r, songs, gap, t, mid);
      assert mid.played + InOrder(mid.songIndex, Plays(songs, mid.songIndex))
          == r.played + Programme(songs, r.songIndex, n);
    }
  }

  lemma OneMoreSong(r: Radio, songs: seq<Song>, gap: nat, t: nat, mid: Radio)
    requires Tuned(r, songs) && mid == Ticks(r, songs, gap, t) && AtStart(mid)
    ensures Ticks(r, songs, gap, t + (Duration(songs, mid.songIndex) + AtLeastOne(gap)))
         == Advanced(mid.(played := mid.played + InOrder(mid.songIndex, Plays(songs, mid.songIndex))), songs)
  {
    SongThenGap(mid, songs, gap, Duration(songs, mid.songIndex));
    TicksAdd(r, songs, gap, t, Duration(songs, mid.songIndex) + AtLeastOne(gap));
  }
}
