/** `database.CreateTables` and `database.InsertSampleData` over an abstract
    SQLite store.

    The store is the two tables' existence and contents plus the
    AUTOINCREMENT counter of `song.id`. The engine's answers are functions of
    the store and of a fault oracle `fails`, which says for each statement
    whether the engine rejects it (a locked or read-only database, a full
    disk); besides faults, a statement on a missing table fails, and a lyric
    row whose (song, line) key is taken violates the primary key. */
module Schema {
  import opened Base
  import opened Sql

  datatype Table = SongTable | LyricsTable

  /** The statements `CreateTables` and `InsertSampleData` send, and the
      `LastInsertId` call on the song insert's result. */
  datatype Stmt =
    | CreateTable(table: Table)
    | CountSongs
    | InsertSong(name: string)
    | LastInsertId
    | InsertLyric(song: int, line: int, text: string)

  /** A row of `song` and a row of `lyrics` (`models.Lyric`). */
  datatype Song = Song(id: int, name: string)
  datatype Lyric = Lyric(song: int, line: int, text: string)

  /** The database: which tables exist, their rows in insertion order, and the
      next id AUTOINCREMENT hands out. */
  datatype Store = Store(songTable: bool, lyricsTable: bool, songs: seq<Song>, lyrics: seq<Lyric>, nextId: int)

  /** A statement's effect on the store and the error it reports, if any. */
  datatype Outcome = Outcome(store: Store, err: Option<Error>)

  /** A song insert's effect and the `sql.Result` (or error) it returns. */
  datatype SongInsert = SongInsert(store: Store, result: Result<ExecResult>)

  type Faults = Stmt -> Option<Error>

  const ExampleSongName: string := "Example Song"

  /** The sample lyric lines, in the order they are inserted. */
  const SampleLyrics: seq<string> := [
    "This is the first line of our example song",
    "Here comes the second line with a melody",
    "The third line continues the story",
    "And this is how our sample song ends"
  ]

  function NoSuchTable(name: string): Error {
    Error("no such table: " + name)
  }

  const LyricKeyTaken: Error := Error("UNIQUE constraint failed: lyrics.song, lyrics.line")

  predicate HasTable(st: Store, t: Table) {
    if t == SongTable then st.songTable else st.lyricsTable
  }

  // ---------------------------------------------------------------------------
  // The engine

  /** `CREATE TABLE IF NOT EXISTS`: creates the table unless it is there already. */
  function Create(st: Store, t: Table, fails: Faults): (o: Outcome)
    ensures o.err.None? <==> fails(CreateTable(t)).None?
    ensures o.err.None? ==> HasTable(o.store, t)
    ensures o.err.Some? ==> o.store == st
    ensures o.store.songs == st.songs && o.store.lyrics == st.lyrics && o.store.nextId == st.nextId
  {
    if fails(CreateTable(t)).Some? then Outcome(st, fails(CreateTable(t)))
    else if t == SongTable then Outcome(st.(songTable := true), None)
    else Outcome(st.(lyricsTable := true), None)
  }

  /** `SELECT COUNT(*) FROM song`, scanned into an `int`. */
  function Count(st: Store, fails: Faults): (r: Result<int>)
    ensures r.Ok? <==> st.songTable && fails(CountSongs).None?
    ensures r.Ok? ==> r.value == |st.songs|
  {
    if !st.songTable then Err(NoSuchTable("song"))
    else if fails(CountSongs).Some? then Err(fails(CountSongs).value)
    else Ok(|st.songs|)
  }

  /** `INSERT INTO song (name) VALUES (?)`: the new row takes the next id. */
  function AddSong(st: Store, name: string, fails: Faults): (o: SongInsert)
    ensures o.result.Ok? <==> st.songTable && fails(InsertSong(name)).None?
    ensures o.result.Ok? ==> && o.result.value.lastInsertId
                                  == (if fails(LastInsertId).Some? then Err(fails(LastInsertId).value) else Ok(st.nextId))
                             && o.store.songs == st.songs + [Song(st.nextId, name)]
                             && o.store.nextId == st.nextId + 1
    ensures o.result.Err? ==> o.store == st
    ensures o.store.lyrics == st.lyrics
  {
    if !st.songTable then SongInsert(st, Err(NoSuchTable("song")))
    else if fails(InsertSong(name)).Some? then SongInsert(st, Err(fails(InsertSong(name)).value))
    else SongInsert(st.(songs := st.songs + [Song(st.nextId, name)], nextId := st.nextId + 1),
                    Ok(ExecResult(if fails(LastInsertId).Some? then Err(fails(LastInsertId).value) else Ok(st.nextId),
                                  Ok(1))))
  }

  predicate LyricKeyUsed(lyrics: seq<Lyric>, song: int, line: int) {
    exists i :: 0 <= i < |lyrics| && lyrics[i].song == song && lyrics[i].line == line
  }

  /** `INSERT INTO lyrics (song, line, text) VALUES (?, ?, ?)`. The foreign key
      is not enforced (SQLite's default), the primary key is. */
  function AddLyric(st: Store, song: int, line: int, text: string, fails: Faults): (o: Outcome)
    ensures o.err.None? <==> st.lyricsTable && !LyricKeyUsed(st.lyrics, song, line)
                              && fails(InsertLyric(song, line, text)).None?
    ensures o.err.None? ==> o.store == st.(lyrics := st.lyrics + [Lyric(song, line, text)])
    ensures o.err.Some? ==> o.store == st
  {
    if !st.lyricsTable then Outcome(st, Some(NoSuchTable("lyrics")))
    else if LyricKeyUsed(st.lyrics, song, line) then Outcome(st, Some(LyricKeyTaken))
    else if fails(InsertLyric(song, line, text)).Some? then Outcome(st, fails(InsertLyric(song, line, text)))
    else Outcome(st.(lyrics := st.lyrics + [Lyric(song, line, text)]), None)
  }

  /** A `*sql.DB` open on the store; `fails` is fixed for the connection's life. */
  class Database {
    var songTable: bool
    var lyricsTable: bool
    var songs: seq<Song>
    var lyrics: seq<Lyric>
    var nextId: int
    const fails: Faults

    function State(): Store
      reads this
    {
      Store(songTable, lyricsTable, songs, lyrics, nextId)
    }

    /** A new, empty database file. */
    constructor (fails: Faults)
      ensures State() == Store(false, false, [], [], 1) && this.fails == fails
    {
      songTable, lyricsTable := false, false;
      songs, lyrics := [], [];
      nextId := 1;
      this.fails := fails;
    }

    method Assign(st: Store)
      modifies this
      ensures State() == st
    {
      songTable, lyricsTable, songs, lyrics, nextId := st.songTable, st.lyricsTable, st.songs, st.lyrics, st.nextId;
    }

    method ExecCreate(t: Table) returns (err: Option<Error>)
      modifies this
      ensures State() == Create(old(State()), t, fails).store && err == Create(old(State()), t, fails).err
    {
      var o := Create(State(), t, fails);
      Assign(o.store);
      err := o.err;
    }

    method QueryCount() returns (r: Result<int>)
      ensures r == Count(State(), fails)
    {
      r := Count(State(), fails);
    }

    method ExecInsertSong(name: string) returns (r: Result<ExecResult>)
      modifies this
      ensures State() == AddSong(old(State()), name, fails).store && r == AddSong(old(State()), name, fails).result
    {
      var o := AddSong(State(), name, fails);
      Assign(o.store);
      r := o.result;
    }

    method ExecInsertLyric(song: int, line: int, text: string) returns (err: Option<Error>)
      modifies this
      ensures State() == AddLyric(old(State()), song, line, text, fails).store
      ensures err == AddLyric(old(State()), song, line, text, fails).err
    {
      var o := AddLyric(State(), song, line, text, fails);
      Assign(o.store);
      err := o.err;
    }
  }

  // ---------------------------------------------------------------------------
  // CreateTables

  /** What `CreateTables` does: `song` first, then `lyrics`, stopping at the
      first failure. */
  function CreateTablesSpec(st: Store, fails: Faults): Outcome {
    var a := Create(st, SongTable, fails);
    if a.err.Some? then a else Create(a.store, LyricsTable, fails)
  }

  method CreateTables(db: Database) returns (err: Option<Error>)
    modifies db
    ensures db.State() == CreateTablesSpec(old(db.State()), db.fails).store
    ensures err == CreateTablesSpec(old(db.State()), db.fails).err
  {
    err := db.ExecCreate(SongTable);
    if err.Some? {
      return err;
    }
    err := db.ExecCreate(LyricsTable);
    if err.Some? {
      return err;
    }
    return None;
  }

  /** `song` is created before `lyrics`: when it fails, that error is returned
      and `lyrics` is not attempted, so the store is untouched; otherwise the
      result is the `lyrics` outcome, and success leaves both tables in place
      with their rows unchanged. */
  lemma CreateTablesOrder(st: Store, fails: Faults)
    ensures var o := CreateTablesSpec(st, fails);
            && (fails(CreateTable(SongTable)).Some? ==> o == Outcome(st, fails(CreateTable(SongTable))))
            && (fails(CreateTable(SongTable)).None? ==> o.err == fails(CreateTable(LyricsTable)))
            && (o.err.None? ==> o.store == st.(songTable := true, lyricsTable := true))
  {
  }

  /** Running `CreateTables` again after it succeeded (on a restart, so with a
      new connection and its own faults `fails2`) changes nothing, and succeeds
      unless the engine rejects one of the two creates. */
  lemma CreateTablesIdempotent(st: Store, fails: Faults, fails2: Faults)
    requires CreateTablesSpec(st, fails).err.None?
    ensures var once := CreateTablesSpec(st, fails).store;
            var again := CreateTablesSpec(once, fails2);
            && again.store == once
            && (again.err.None? <==> fails2(CreateTable(SongTable)).None? && fails2(CreateTable(LyricsTable)).None?)
  {
    var once := CreateTablesSpec(st, fails).store;
    assert once.(songTable := true) == once;
    assert once.(lyricsTable := true) == once;
  }

  // ---------------------------------------------------------------------------
  // InsertSampleData

  /** The rows `InsertSampleData` means to add for song `id`: line `k + 1` holds `lines[k]`. */
  function LyricRows(id: int, lines: seq<string>): (rows: seq<Lyric>)
    ensures |rows| == |lines|
    ensures forall k :: 0 <= k < |lines| ==> rows[k] == Lyric(id, k + 1, lines[k])
  {
    seq(|lines|, k requires 0 <= k < |lines| => Lyric(id, k + 1, lines[k]))
  }

  /** The lyric inserts from position `i` of `lines` on, each numbered by its
      position plus one, stopping at the first one that fails. */
  function InsertLines(st: Store, id: int, lines: seq<string>, i: nat, fails: Faults): Outcome
    requires i <= |lines|
    decreases |lines| - i
  {
    if i == |lines| then Outcome(st, None)
    else
      var o := AddLyric(st, id, i + 1, lines[i], fails);
      if o.err.Some? then o else InsertLines(o.store, id, lines, i + 1, fails)
  }

  /** What `InsertSampleData` does. */
  function SeedSpec(st: Store, fails: Faults): Outcome {
    match Count(st, fails)
    case Err(e) => Outcome(st, Some(e))
    case Ok(n) =>
      if n > 0 then Outcome(st, None)
      else
        var s := AddSong(st, ExampleSongName, fails);
        match s.result
        case Err(e) => Outcome(s.store, Some(e))
        case Ok(res) =>
          match res.lastInsertId
          case Err(e) => Outcome(s.store, Some(e))
          case Ok(id) => InsertLines(s.store, id, SampleLyrics, 0, fails)
  }

  method InsertSampleData(db: Database) returns (err: Option<Error>)
    modifies db
    ensures db.State() == SeedSpec(old(db.State()), db.fails).store
    ensures err == SeedSpec(old(db.State()), db.fails).err
  {
    var count := db.QueryCount();
    if count.Err? {
      return Some(count.error);
    }
    if count.value > 0 {
      return None;
    }

    var result := db.ExecInsertSong(ExampleSongName);
    if result.Err? {
      return Some(result.error);
    }
    if result.value.lastInsertId.Err? {
      return Some(result.value.lastInsertId.error);
    }
    var songId := result.value.lastInsertId.value;

    var lyrics := SampleLyrics;
    ghost var seeded := db.State();
    for i := 0 to |lyrics|
      invariant InsertLines(db.State(), songId, lyrics, i, db.fails) == InsertLines(seeded, songId, lyrics, 0, db.fails)
    {
      var e := db.ExecInsertLyric(songId, i + 1, lyrics[i]);
      if e.Some? {
        return e;
      }
    }
    return None;
  }

  /** The lyric inserts add a prefix of the intended rows, in order: all of them
      when no insert fails, and otherwise exactly those before the first
      failure, whose own error is the one returned. */
  lemma {:induction false} InsertLinesPrefix(st: Store, id: int, lines: seq<string>, i: nat, fails: Faults)
    returns (k: nat)
    requires i <= |lines|
    ensures i <= k <= |lines|
    ensures InsertLines(st, id, lines, i, fails).store == st.(lyrics := st.lyrics + LyricRows(id, lines)[i..k])
    ensures InsertLines(st, id, lines, i, fails).err.None? <==> k == |lines|
    ensures k < |lines| ==>
              var o := InsertLines(st, id, lines, i, fails);
              o.err == AddLyric(o.store, id, k + 1, lines[k], fails).err
    decreases |lines| - i
  {
    var rows := LyricRows(id, lines);
    if i == |lines| {
      k := i;
      assert st.lyrics + rows[i..k] == st.lyrics;
    } else {
      var a := AddLyric(st, id, i + 1, lines[i], fails);
      if a.err.Some? {
        k := i;
        assert st.lyrics + rows[i..k] == st.lyrics;
        assert a.store == st;
      } else {
        k := InsertLinesPrefix(a.store, id, lines, i + 1, fails);
        assert st.lyrics + rows[i..k] == a.store.lyrics + rows[i + 1..k] by {
          assert rows[i..k] == [rows[i]] + rows[i + 1..k];
        }
      }
    }
  }

  /** With no fault and no row of song `id` past line `i`, every remaining
      line is inserted. */
  lemma {:induction false} InsertLinesFaultFree(st: Store, id: int, lines: seq<string>, i: nat, fails: Faults)
    requires i <= |lines| && st.lyricsTable
    requires forall s :: fails(s).None?
    requires forall j :: 0 <= j < |st.lyrics| && st.lyrics[j].song == id ==> st.lyrics[j].line <= i
    ensures InsertLines(st, id, lines, i, fails)
            == Outcome(st.(lyrics := st.lyrics + LyricRows(id, lines)[i..]), None)
    decreases |lines| - i
  {
    var rows := LyricRows(id, lines);
    if i == |lines| {
      assert st.lyrics + rows[i..] == st.lyrics;
    } else {
      assert !LyricKeyUsed(st.lyrics, id, i + 1);
      var a := AddLyric(st, id, i + 1, lines[i], fails);
      assert a.store.lyrics == st.lyrics + [rows[i]];
      InsertLinesFaultFree(a.store, id, lines, i + 1, fails);
      assert st.lyrics + rows[i..] == a.store.lyrics + rows[i + 1..] by {
        assert rows[i..] == [rows[i]] + rows[i + 1..];
      }
    }
  }

  /** The count guard: when the store already has songs, seeding succeeds
      without touching it. */
  lemma SeedSkipsNonEmpty(st: Store, fails: Faults)
    requires Count(st, fails).Ok? && |st.songs| > 0
    ensures SeedSpec(st, fails) == Outcome(st, None)
  {
  }

  /** A failing count query is returned as is, before any insert. */
  lemma SeedCountError(st: Store, fails: Faults)
    requires Count(st, fails).Err?
    ensures SeedSpec(st, fails) == Outcome(st, Some(Count(st, fails).error))
  {
  }

  /** On a store whose count succeeds and finds no song: a failed song insert
      is returned as is; otherwise one song "Example Song" is added with the
      next id, a failing `LastInsertId` is returned before any lyric, and
      then a prefix of the four sample lines for that id is added, numbered 1
      to 4 in list order: the whole list exactly when nothing failed, and
      otherwise the lines before the first failing insert, whose error is
      returned. */
  lemma SeedOnEmpty(st: Store, fails: Faults)
    requires Count(st, fails) == Ok(0)
    ensures var o := SeedSpec(st, fails);
            var s := AddSong(st, ExampleSongName, fails);
            && (s.result.Err? ==> o == Outcome(st, Some(s.result.error)))
            && (s.result.Ok? ==>
                  && o.store.songs == st.songs + [Song(st.nextId, ExampleSongName)]
                  && o.store.nextId == st.nextId + 1
                  && (fails(LastInsertId).Some? ==> o.err == fails(LastInsertId) && o.store.lyrics == st.lyrics)
                  && exists k :: 0 <= k <= 4
                       && o.store.lyrics == st.lyrics + LyricRows(st.nextId, SampleLyrics)[..k]
                       && (o.err.None? <==> k == 4)
                       && (fails(LastInsertId).None? && k < 4 ==>
                             o.err == AddLyric(o.store, st.nextId, k + 1, SampleLyrics[k], fails).err))
  {
    var s := AddSong(st, ExampleSongName, fails);
    if s.result.Ok? {
      if s.result.value.lastInsertId.Err? {
        assert SeedSpec(st, fails).store.lyrics == st.lyrics + LyricRows(st.nextId, SampleLyrics)[..0];
      } else {
        var k := InsertLinesPrefix(s.store, st.nextId, SampleLyrics, 0, fails);
        assert SampleLyrics[0..k] == SampleLyrics[..k];
        assert LyricRows(st.nextId, SampleLyrics)[0..k] == LyricRows(st.nextId, SampleLyrics)[..k];
      }
    }
  }

  /** When nothing fails, seeding an empty store adds exactly the example song
      and its four lines. */
  lemma SeedFaultFree(st: Store, fails: Faults)
    requires st.songTable && st.lyricsTable && st.songs == []
    requires forall s :: fails(s).None?
    requires forall k :: 0 <= k < |st.lyrics| ==> st.lyrics[k].song != st.nextId
    ensures SeedSpec(st, fails)
            == Outcome(st.(songs := [Song(st.nextId, ExampleSongName)],
                           lyrics := st.lyrics + LyricRows(st.nextId, SampleLyrics),
                           nextId := st.nextId + 1), None)
  {
    var s := AddSong(st, ExampleSongName, fails);
    InsertLinesFaultFree(s.store, st.nextId, SampleLyrics, 0, fails);
    assert LyricRows(st.nextId, SampleLyrics)[0..] == LyricRows(st.nextId, SampleLyrics);
  }

  /** Once a seed has added the example song, seeding again (on a restart, so
      with a new connection and its own faults `fails2`) changes nothing, even
      when the first run stopped before all of its lyric lines were in. Its only
      possible error is the count query's. */
  lemma SeedIdempotent(st: Store, fails: Faults, fails2: Faults)
    requires Count(st, fails).Ok?
    requires SeedSpec(st, fails).err.None? || |SeedSpec(st, fails).store.songs| > 0
    ensures var once := SeedSpec(st, fails).store;
            SeedSpec(once, fails2) == Outcome(once, fails2(CountSongs))
  {
    var once := SeedSpec(st, fails).store;
    if |st.songs| == 0 {
      var s := AddSong(st, ExampleSongName, fails);
      if s.result.Ok? && s.result.value.lastInsertId.Ok? {
        var k := InsertLinesPrefix(s.store, st.nextId, SampleLyrics, 0, fails);
      }
    }
  }
}
