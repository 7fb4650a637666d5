/**
 * The quick overview of the merged data: record and time totals, distinct
 * artists and tracks, the five most-streamed artists, playlist and follower
 * totals, and the privacy status read back from the privacy report.
 */
module QuickSummary {
  import opened JsonValue
  import Tally
  import opened Plays
  import Diagnostic

  /**
   * A list the overview iterates, `data.get(key, [])`: absent, a list of
   * records, or an empty collection (which `len` and `for` accept).
   */
  predicate SectionShape(fs: seq<(string, Json)>, key: string, record: Json -> bool) {
    match Lookup(fs, key)
    case None => true
    case Some(v) => (v.Arr? && forall i :: 0 <= i < |v.items| ==> record(v.items[i])) || Len(v) == Some(0)
  }

  /** What the overview needs of the loaded merged data to run without raising. */
  predicate MergedData(data: Json) {
    && data.Obj?
    && SectionShape(data.fields, "streaming_history", ArtistTrackRecord)
    && SectionShape(data.fields, "playlists", FollowerField)
  }

  /** The records of a section; an absent or empty section has none. */
  function Section(data: Json, key: string): (xs: seq<Json>)
    requires data.Obj?
    ensures !HasKey(data.fields, key) ==> xs == []
  {
    match Lookup(data.fields, key)
    case Some(Arr(items)) => items
    case _ => []
  }

  datatype Overview = Overview(
    totalStreams: nat, totalTimeMs: int, uniqueArtists: nat, uniqueTracks: nat,
    topArtists: Tally.Counts<Json>, totalPlaylists: nat, totalFollowers: int)

  function ByCount(p: (Json, int)): int {
    p.1
  }

  /** The figures printed from the merged data; `None` when there is no data or it is falsy. */
  function OverviewOf(data: Option<Json>): (r: Option<Overview>)
    requires data.Some? && Truthy(data.value) ==> MergedData(data.value)
    ensures r.None? <==> data.None? || !Truthy(data.value)
  {
    if data.None? || !Truthy(data.value) then None
    else
      var history := Section(data.value, "streaming_history");
      var playlists := Section(data.value, "playlists");
      Some(Overview(
        |history|, Total(history, Ms),
        |DistinctNames(history, ArtistOf)|, |DistinctNames(history, TrackKeyOf)|,
        Tally.TopN(StreamsBy(history, ArtistOf), ByCount, 5),
        |playlists|, Total(playlists, Followers)))
  }

  /** The privacy lines: the report's counts, or the line saying it could not be read. */
  datatype PrivacyStatus = NotReadable | Counted(filesAnalyzed: int, safeFiles: nat, riskyFiles: nat)

  /** A count the `:,` format accepts: an int, or a bool read as 0 or 1. */
  function Formatted(v: Json): Option<int> {
    match v
    case Int(i) => Some(i)
    case Bool(b) => Some(if b then 1 else 0)
    case _ => None
  }

  /**
   * The privacy section: nothing when there is no report; the counts when the
   * report is a dict whose lists have a length and whose file count formats;
   * otherwise every failure inside the `try` ends on the unreadable line.
   */
  function PrivacyStatusOf(report: Option<Loaded>): (r: Option<PrivacyStatus>)
    ensures report.None? <==> r.None?
    ensures report.Some? && report.value.Unreadable? ==> r == Some(NotReadable)
    ensures r.Some? && r.value.Counted? ==>
      report.value.Parsed? && report.value.data.Obj? &&
      Len(GetOr(report.value.data.fields, "safe_files", Arr([]))) == Some(r.value.safeFiles) &&
      Len(GetOr(report.value.data.fields, "risky_files", Arr([]))) == Some(r.value.riskyFiles)
  {
    match report
    case None => None
    case Some(Unreadable(_)) => Some(NotReadable)
    case Some(Parsed(d)) =>
      if !d.Obj? then Some(NotReadable)
      else
        var files := Formatted(GetOr(d.fields, "files_analyzed", Int(0)));
        var safe := Len(GetOr(d.fields, "safe_files", Arr([])));
        var risky := Len(GetOr(d.fields, "risky_files", Arr([])));
        if files.Some? && safe.Some? && risky.Some? then Some(Counted(files.value, safe.value, risky.value))
        else Some(NotReadable)
  }

  /** The status line of a readable report. */
  function Status(p: PrivacyStatus): (r: string)
    requires p.Counted?
    ensures r == "✅ Safe" <==> p.safeFiles > p.riskyFiles
    ensures r == "⚠️ Needs Review" <==> p.safeFiles <= p.riskyFiles
  {
    Diagnostic.StatusText(p.safeFiles > p.riskyFiles)
  }

  // ------------------------------------------------------------ the loop

  /** The `artist_streams` loop: records per truthy artist name, in first-seen order. */
  method CountArtists(history: seq<Json>) returns (artistStreams: Tally.Counts<Json>)
    ensures artistStreams == StreamsBy(history, ArtistOf)
  {
    artistStreams := [];
    var i := 0;
    while i < |history|
      invariant 0 <= i <= |history|
      invariant artistStreams == Tally.Fold(Keyed(history[..i], ArtistOf, One))
    {
      KeyedSnoc(history, ArtistOf, One, i);
      var artist := ArtistOf(history[i]);
      if artist != Null {
        Tally.FoldSnoc(Keyed(history[..i], ArtistOf, One), (artist, 1));
        artistStreams := Tally.Bump(artistStreams, artist, 1);
      } else {
        assert Keyed(history[..i + 1], ArtistOf, One) == Keyed(history[..i], ArtistOf, One);
      }
      i := i + 1;
    }
    assert history[..i] == history;
  }

  /** `print_summary`: the overview and the privacy section, each absent where the script prints none. */
  method PrintSummary(data: Option<Json>, report: Option<Loaded>) returns (overview: Option<Overview>, privacy: Option<PrivacyStatus>)
    requires data.Some? && Truthy(data.value) ==> MergedData(data.value)
    ensures overview == OverviewOf(data)
    ensures overview.None? ==> privacy.None?
    ensures overview.Some? ==> privacy == PrivacyStatusOf(report)
  {
    if data.None? || !Truthy(data.value) {
      return None, None;
    }
    var history := Section(data.value, "streaming_history");
    var playlists := Section(data.value, "playlists");
    var artistStreams := CountArtists(history);
    overview := Some(Overview(
      |history|, Total(history, Ms),
      |DistinctNames(history, ArtistOf)|, |DistinctNames(history, TrackKeyOf)|,
      Tally.TopN(artistStreams, ByCount, 5),
      |playlists|, Total(playlists, Followers)));
    privacy := PrivacyStatusOf(report);
  }

  // ------------------------------------------------------------ lemmas

  /**
   * The five most-streamed artists of a history: min(5, number of artists)
   * entries, most streams first, tied artists in first-seen order, each with
   * its number of records.
   */
  lemma TopFive(history: seq<Json>)
    ensures var top := Tally.TopN(StreamsBy(history, ArtistOf), ByCount, 5);
      var n := |DistinctNames(history, ArtistOf)|;
      |top| == if n <= 5 then n else 5
    ensures var top := Tally.TopN(StreamsBy(history, ArtistOf), ByCount, 5);
      forall i, j :: 0 <= i < j < |top| ==> top[i].1 >= top[j].1
    ensures var top := Tally.TopN(StreamsBy(history, ArtistOf), ByCount, 5);
      forall i :: 0 <= i < |top| ==> top[i].1 == CountOfKey(history, ArtistOf, top[i].0)
    ensures var top := Tally.TopN(StreamsBy(history, ArtistOf), ByCount, 5);
      forall v :: |Tally.WithKey(top, ByCount, v)| <= |Tally.WithKey(StreamsBy(history, ArtistOf), ByCount, v)|
    ensures var top := Tally.TopN(StreamsBy(history, ArtistOf), ByCount, 5);
      forall v :: Tally.WithKey(top, ByCount, v) == Tally.WithKey(StreamsBy(history, ArtistOf), ByCount, v)[..|Tally.WithKey(top, ByCount, v)|]
  {
    var streams := StreamsBy(history, ArtistOf);
    var top := Tally.TopN(streams, ByCount, 5);
    CounterSize(history, ArtistOf, One);
    Tally.TopNSpec(streams, ByCount, 5);
    Tally.FoldDistinct(Keyed(history, ArtistOf, One));
    forall i | 0 <= i < |top|
      ensures top[i].1 == CountOfKey(history, ArtistOf, top[i].0)
    {
      assert top[i] in multiset(streams);
      Diagnostic.EntryValue(streams, top[i]);
      CounterValues(history, ArtistOf, top[i].0);
    }
    forall v
      ensures |Tally.WithKey(top, ByCount, v)| <= |Tally.WithKey(streams, ByCount, v)|
      ensures Tally.WithKey(top, ByCount, v) == Tally.WithKey(streams, ByCount, v)[..|Tally.WithKey(top, ByCount, v)|]
    {
      Tally.TopNStable(streams, ByCount, 5, v);
    }
  }

  /** The artist counts add up to the number of records with a truthy artist name. */
  lemma ArtistStreamsSum(data: Option<Json>)
    requires data.Some? && Truthy(data.value) ==> MergedData(data.value)
    requires OverviewOf(data).Some?
    ensures var history := Section(data.value, "streaming_history");
      Tally.SumValues(StreamsBy(history, ArtistOf)) == |NamedIndices(history, ArtistOf)|
    ensures var history := Section(data.value, "streaming_history");
      |StreamsBy(history, ArtistOf)| == OverviewOf(data).value.uniqueArtists
  {
    var history := Section(data.value, "streaming_history");
    StreamsSum(history, ArtistOf);
    CounterSize(history, ArtistOf, One);
  }
}
