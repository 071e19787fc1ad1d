/** `queries.GetSongWithLyricsContext`: one query joins `song` and `lyrics`,
    and a loop over the result rows folds them into one `SongWithLyrics`. The
    song's id and name come from the first row with a non-zero id (a zero id
    is the "nothing taken yet" sentinel), and every row contributes its lyric
    text, in row order. A failing query, a failing scan or an iteration error
    gives no result. */
module SongQueries {
  import opened Base
  import opened Sql

  /** `models.SongWithLyrics`. */
  datatype SongWithLyrics = SongWithLyrics(id: int, name: string, lyrics: seq<string>)

  /** One scanned row of the join: `s.id`, `s.name`, `l.text`. */
  datatype JoinRow = JoinRow(songId: int, songName: string, lyricText: string)

  const SongWithLyricsQuery: string :=
    "\n\tSELECT s.id, s.name, l.text \n\tFROM song s \n\tJOIN lyrics l ON s.id = l.song \n\tORDER BY s.id, l.line"

  /** The destinations `&songID, &songName, &lyricText`. */
  const JoinDests: seq<Dest> := [IntDest, StringDest, StringDest]

  /** `rows.Scan(&songID, &songName, &lyricText)` on one row. */
  function ScanJoinRow(cols: seq<SqlValue>): (r: Result<JoinRow>)
    ensures r.Ok? <==> Scan(cols, JoinDests).Ok?
  {
    match Scan(cols, JoinDests)
    case Err(e) => Err(e)
    case Ok(vs) =>
      assert Fits(vs[0], IntDest) && Fits(vs[1], StringDest) && Fits(vs[2], StringDest);
      Ok(JoinRow(vs[0].i, vs[1].s, vs[2].s))
  }

  /** The three values `Scan` stored go to `songID`, `songName` and
      `lyricText` in column order, and a refused scan is reported with `Scan`'s
      own error. */
  lemma ScanJoinRowColumns(cols: seq<SqlValue>)
    ensures var r := ScanJoinRow(cols);
            && (r.Ok? ==> Scan(cols, JoinDests).value
                          == [IntValue(r.value.songId), StringValue(r.value.songName), StringValue(r.value.lyricText)])
            && (r.Err? ==> r.error == Scan(cols, JoinDests).error)
  {
  }

  /** Scans the rows in order; the first row that does not scan decides the error. */
  function ScanRows(data: seq<seq<SqlValue>>): (r: Result<seq<JoinRow>>)
    ensures r.Ok? ==> |r.value| == |data|
  {
    if data == [] then Ok([])
    else
      match ScanRows(data[..|data| - 1])
      case Err(e) => Err(e)
      case Ok(init) =>
        match ScanJoinRow(data[|data| - 1])
        case Err(e) => Err(e)
        case Ok(row) => Ok(init + [row])
  }

  const EmptySong: SongWithLyrics := SongWithLyrics(0, "", [])

  /** One loop iteration: while the id is still the sentinel 0, the row's id
      and name are taken; the row's text is always appended. */
  function Absorb(acc: SongWithLyrics, row: JoinRow): SongWithLyrics {
    var taken := if acc.id == 0 then acc.(id := row.songId, name := row.songName) else acc;
    taken.(lyrics := acc.lyrics + [row.lyricText])
  }

  /** The loop's result over the scanned rows. */
  function Fold(rows: seq<JoinRow>): SongWithLyrics {
    if rows == [] then EmptySong else Absorb(Fold(rows[..|rows| - 1]), rows[|rows| - 1])
  }

  /** What `GetSongWithLyricsContext` returns for the query's answer. */
  function SongFromQuery(answer: Result<Rows>): Result<SongWithLyrics> {
    match answer
    case Err(e) => Err(e)
    case Ok(rows) =>
      match ScanRows(rows.data)
      case Err(e) => Err(e)
      case Ok(scanned) =>
        if rows.err.Some? then Err(rows.err.value) else Ok(Fold(scanned))
  }

  method GetSongWithLyricsContext(ctx: Context, db: DB) returns (r: Result<SongWithLyrics>)
    ensures r == SongFromQuery(db.queryContext(ctx, SongWithLyricsQuery, []))
  {
    var answer := db.queryContext(ctx, SongWithLyricsQuery, []);
    if answer.Err? {
      return Err(answer.error);
    }
    var rows := answer.value;

    var result := EmptySong;
    var lyrics: seq<string> := [];
    var currentSongID := 0;
    ghost var scanned: seq<JoinRow> := [];

    var i := 0;
    while i < |rows.data|
      invariant 0 <= i <= |rows.data|
      invariant ScanRows(rows.data[..i]) == Ok(scanned)
      invariant Fold(scanned) == result.(lyrics := lyrics)
      invariant currentSongID == result.id
      decreases |rows.data| - i
    {
      var row := ScanJoinRow(rows.data[i]);
      if row.Err? {
        ScanRowsStepError(rows.data, i);
        ScanRowsPrefixError(rows.data, i + 1);
        return Err(row.error);
      }
      ScanRowsStepOk(rows.data, i);
      var songId, songName, lyricText := row.value.songId, row.value.songName, row.value.lyricText;

      if currentSongID == 0 {
        currentSongID := songId;
        result := result.(id := songId, name := songName);
      }

      lyrics := lyrics + [lyricText];
      assert (scanned + [row.value])[..|scanned|] == scanned;
      scanned := scanned + [row.value];
      i := i + 1;
    }
    assert rows.data[..i] == rows.data;

    result := result.(lyrics := lyrics);

    if rows.err.Some? {
      return Err(rows.err.value);
    }
    return Ok(result);
  }

  /** `GetSongWithLyrics(db)`: the same, under the background context. */
  method GetSongWithLyrics(db: DB) returns (r: Result<SongWithLyrics>)
    ensures r == SongFromQuery(db.queryContext(Background, SongWithLyricsQuery, []))
  {
    r := GetSongWithLyricsContext(Background, db);
  }

  /** A prefix that does not scan makes the whole row set fail to scan, with
      the same error. */
  lemma {:induction false} ScanRowsPrefixError(data: seq<seq<SqlValue>>, n: nat)
    requires n <= |data| && ScanRows(data[..n]).Err?
    ensures ScanRows(data) == ScanRows(data[..n])
    decreases |data| - n
  {
    if n == |data| {
      assert data[..n] == data;
    } else {
      assert data[..n + 1][..n] == data[..n];
      ScanRowsPrefixError(data, n + 1);
    }
  }

  /** When every row scans, the scan keeps them all, in order. */
  lemma {:induction false} ScanRowsOk(data: seq<seq<SqlValue>>)
    requires forall j :: 0 <= j < |data| ==> ScanJoinRow(data[j]).Ok?
    ensures ScanRows(data).Ok?
    ensures forall j :: 0 <= j < |data| ==> ScanRows(data).value[j] == ScanJoinRow(data[j]).value
  {
    if data != [] {
      var init := data[..|data| - 1];
      assert forall j :: 0 <= j < |init| ==> init[j] == data[j];
      ScanRowsOk(init);
    }
  }

  /** The first row that does not scan decides the error, whatever follows it. */
  lemma ScanRowsFirstError(before: seq<seq<SqlValue>>, bad: seq<SqlValue>, after: seq<seq<SqlValue>>)
    requires forall k :: 0 <= k < |before| ==> ScanJoinRow(before[k]).Ok?
    requires ScanJoinRow(bad).Err?
    ensures ScanRows(before + [bad] + after) == Err(ScanJoinRow(bad).error)
  {
    var data := before + [bad] + after;
    var j := |before|;
    assert data[..j] == before && data[j] == bad;
    ScanRowsPrefixOk(data, j);
    ScanRowsStepError(data, j);
    ScanRowsPrefixError(data, j + 1);
  }

  lemma {:induction false} ScanRowsPrefixOk(data: seq<seq<SqlValue>>, n: nat)
    requires n <= |data|
    requires forall k :: 0 <= k < n ==> ScanJoinRow(data[k]).Ok?
    ensures ScanRows(data[..n]).Ok?
  {
    if n > 0 {
      ScanRowsPrefixOk(data, n - 1);
      assert data[..n][..n - 1] == data[..n - 1];
    }
  }

  lemma ScanRowsStepOk(data: seq<seq<SqlValue>>, j: nat)
    requires j < |data| && ScanRows(data[..j]).Ok? && ScanJoinRow(data[j]).Ok?
    ensures ScanRows(data[..j + 1]) == Ok(ScanRows(data[..j]).value + [ScanJoinRow(data[j]).value])
  {
    assert data[..j + 1][..j] == data[..j] && data[..j + 1][j] == data[j];
  }

  lemma ScanRowsStepError(data: seq<seq<SqlValue>>, j: nat)
    requires j < |data| && ScanRows(data[..j]).Ok? && ScanJoinRow(data[j]).Err?
    ensures ScanRows(data[..j + 1]) == Err(ScanJoinRow(data[j]).error)
  {
    assert data[..j + 1][..j] == data[..j] && data[..j + 1][j] == data[j];
  }

  /** The lyrics are the rows' texts, one per row, in row order. */
  lemma {:induction false} FoldLyrics(rows: seq<JoinRow>)
    ensures |Fold(rows).lyrics| == |rows|
    ensures forall j :: 0 <= j < |rows| ==> Fold(rows).lyrics[j] == rows[j].lyricText
  {
    if rows != [] {
      FoldLyrics(rows[..|rows| - 1]);
    }
  }

  /** While no row has a non-zero id, each row overwrites the id and the name:
      when every id is 0 the result has id 0 and the last row's name. */
  lemma {:induction false} FoldAllZero(rows: seq<JoinRow>)
    requires forall j :: 0 <= j < |rows| ==> rows[j].songId == 0
    ensures Fold(rows).id == 0
    ensures rows != [] ==> Fold(rows).name == rows[|rows| - 1].songName
  {
    if rows != [] {
      FoldAllZero(rows[..|rows| - 1]);
    }
  }

  /** The id and name are those of the first row with a non-zero id; no later
      row changes them. */
  lemma {:induction false} FoldFirstNonZero(rows: seq<JoinRow>, j: nat)
    requires j < |rows| && rows[j].songId != 0
    requires forall k :: 0 <= k < j ==> rows[k].songId == 0
    ensures Fold(rows).id == rows[j].songId && Fold(rows).name == rows[j].songName
  {
    var init := rows[..|rows| - 1];
    if j == |rows| - 1 {
      FoldAllZero(init);
    } else {
      FoldFirstNonZero(init, j);
    }
  }

  /** A query error is returned before any row is read; when every row scans,
      an iteration error reported after the loop is returned even though rows
      were read. */
  lemma SongFromQueryErrors(answer: Result<Rows>)
    ensures answer.Err? ==> SongFromQuery(answer) == Err(answer.error)
    ensures answer.Ok? && answer.value.err.Some?
              && (forall j :: 0 <= j < |answer.value.data| ==> ScanJoinRow(answer.value.data[j]).Ok?)
            ==> SongFromQuery(answer) == Err(answer.value.err.value)
  {
    if answer.Ok? && forall j :: 0 <= j < |answer.value.data| ==> ScanJoinRow(answer.value.data[j]).Ok? {
      ScanRowsOk(answer.value.data);
    }
  }

  /** A row that does not scan gives that row's error and no result: the lyrics
      read so far are dropped, and a later iteration error is never seen. */
  lemma SongFromQueryScanError(before: seq<seq<SqlValue>>, bad: seq<SqlValue>, after: seq<seq<SqlValue>>,
                                err: Option<Error>)
    requires forall k :: 0 <= k < |before| ==> ScanJoinRow(before[k]).Ok?
    requires ScanJoinRow(bad).Err?
    ensures SongFromQuery(Ok(Rows(before + [bad] + after, err))) == Err(ScanJoinRow(bad).error)
  {
    ScanRowsFirstError(before, bad, after);
  }

  /** When every row scans and no iteration error follows, the result is the
      fold of the scanned rows. */
  lemma SongFromScanned(rows: Rows) returns (scanned: seq<JoinRow>)
    requires rows.err.None?
    requires forall j :: 0 <= j < |rows.data| ==> ScanJoinRow(rows.data[j]).Ok?
    ensures SongFromQuery(Ok(rows)) == Ok(Fold(scanned))
    ensures |scanned| == |rows.data|
    ensures forall j :: 0 <= j < |rows.data| ==> scanned[j] == ScanJoinRow(rows.data[j]).value
  {
    ScanRowsOk(rows.data);
    scanned := ScanRows(rows.data).value;
  }

  /** On success the lyrics are the texts of all rows in order; an empty row
      set gives id 0, an empty name and no lyrics. */
  lemma SongFromQuerySuccess(rows: Rows)
    requires rows.err.None?
    requires forall j :: 0 <= j < |rows.data| ==> ScanJoinRow(rows.data[j]).Ok?
    ensures SongFromQuery(Ok(rows)).Ok?
    ensures var song := SongFromQuery(Ok(rows)).value;
            && |song.lyrics| == |rows.data|
            && (forall j :: 0 <= j < |rows.data| ==> song.lyrics[j] == ScanJoinRow(rows.data[j]).value.lyricText)
            && (rows.data == [] ==> song == EmptySong)
  {
    var scanned := SongFromScanned(rows);
    FoldLyrics(scanned);
  }

  /** On success the id and name come from the first row with a non-zero id,
      or, when every id is 0, the id is 0 and the name is the last row's. */
  lemma SongFromQueryIdentity(rows: Rows)
    requires rows.err.None?
    requires forall j :: 0 <= j < |rows.data| ==> ScanJoinRow(rows.data[j]).Ok?
    ensures SongFromQuery(Ok(rows)).Ok?
    ensures var song := SongFromQuery(Ok(rows)).value;
            && (forall j :: 0 <= j < |rows.data| && ScanJoinRow(rows.data[j]).value.songId != 0
                              && (forall k :: 0 <= k < j ==> ScanJoinRow(rows.data[k]).value.songId == 0)
                           ==> (song.id == ScanJoinRow(rows.data[j]).value.songId
                                && song.name == ScanJoinRow(rows.data[j]).value.songName))
            && ((forall j :: 0 <= j < |rows.data| ==> ScanJoinRow(rows.data[j]).value.songId == 0) && rows.data != []
                ==> song.id == 0 && song.name == ScanJoinRow(rows.data[|rows.data| - 1]).value.songName)
  {
    var scanned := SongFromScanned(rows);
    forall j | 0 <= j < |rows.data| && ScanJoinRow(rows.data[j]).value.songId != 0
               && (forall k :: 0 <= k < j ==> ScanJoinRow(rows.data[k]).value.songId == 0)
      ensures Fold(scanned).id == scanned[j].songId && Fold(scanned).name == scanned[j].songName
    {
      FoldFirstNonZero(scanned, j);
    }
    if forall j :: 0 <= j < |rows.data| ==> ScanJoinRow(rows.data[j]).value.songId == 0 {
      FoldAllZero(scanned);
    }
  }
}
