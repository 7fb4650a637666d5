/**
 * The diagnostic report over the merged data: streaming totals and distinct
 * counts, per-artist and per-track counters with their top-20 lists, playlist
 * totals with the top-10 playlists, listening peaks by hour and weekday, and
 * an overall summary with a privacy status.
 *
 * Times stay in milliseconds; the rounded hour and day figures derived from
 * them are not modelled. Ratios are exact `real` quotients.
 */
module Diagnostic {
  import opened JsonValue
  import Tally
  import opened Plays

  // ------------------------------------------------------------ end times

  /**
   * A parsed end time: its instant in microseconds (time zone applied), its
   * hour, its weekday name (`%A`) and its month (`%Y-%m`).
   */
  datatype Stamp = Stamp(instant: int, hour: int, weekday: string, month: string)

  /** `datetime.fromisoformat(s.replace('Z', '+00:00'))`, or `None` where it raises. */
  type Clock = string -> Option<Stamp>

  const MicrosPerDay: int := 86400000000

  /** A record's end time, when it is a non-empty string that parses; anything else is skipped. */
  function StampOf(clock: Clock, e: Json): Option<Stamp> {
    if e.Obj? then
      match Lookup(e.fields, "endTime")
      case Some(Str(s)) => if s != "" then clock(s) else None
      case _ => None
    else None
  }

  /** The end times of the records that have one, in record order. */
  function Stamps(clock: Clock, es: seq<Json>): (st: seq<Stamp>)
    ensures |st| <= |es|
  {
    if es == [] then []
    else
      var s := StampOf(clock, es[|es| - 1]);
      Stamps(clock, es[..|es| - 1]) + (if s.Some? then [s.value] else [])
  }

  /** `min(dates)`. */
  function Earliest(st: seq<Stamp>): (r: int)
    requires st != []
    ensures exists i :: 0 <= i < |st| && st[i].instant == r
    ensures forall i :: 0 <= i < |st| ==> r <= st[i].instant
  {
    if |st| == 1 then st[0].instant
    else
      var m := Earliest(st[..|st| - 1]);
      assert forall i :: 0 <= i < |st| - 1 ==> st[..|st| - 1][i] == st[i];
      if st[|st| - 1].instant < m then st[|st| - 1].instant else m
  }

  /** `max(dates)`. */
  function Latest(st: seq<Stamp>): (r: int)
    requires st != []
    ensures exists i :: 0 <= i < |st| && st[i].instant == r
    ensures forall i :: 0 <= i < |st| ==> st[i].instant <= r
  {
    if |st| == 1 then st[0].instant
    else
      var m := Latest(st[..|st| - 1]);
      assert forall i :: 0 <= i < |st| - 1 ==> st[..|st| - 1][i] == st[i];
      if st[|st| - 1].instant > m then st[|st| - 1].instant else m
  }

  /** `(max(dates) - min(dates)).days`: the whole days between the first and last end time, 0 without dates. */
  function RangeDays(st: seq<Stamp>): (d: int)
    ensures st == [] ==> d == 0
    ensures st != [] ==> d >= 0 && d * MicrosPerDay <= Latest(st) - Earliest(st) < (d + 1) * MicrosPerDay
  {
    if st == [] then 0 else (Latest(st) - Earliest(st)) / MicrosPerDay
  }

  // ------------------------------------------------------------ ratios

  /** `part / whole * 100 if whole > 0 else 0`, without rounding. */
  function Percent(part: int, whole: nat): (r: real)
    ensures whole == 0 ==> r == 0.0
    ensures whole > 0 ==> r * (whole as real) == (part as real) * 100.0
  {
    if whole > 0 then (part as real) / (whole as real) * 100.0 else 0.0
  }

  /** `total / count if count > 0 else 0`, without rounding. */
  function Average(total: int, count: nat): (r: real)
    ensures count == 0 ==> r == 0.0
    ensures count > 0 ==> r * (count as real) == total as real
  {
    if count > 0 then (total as real) / (count as real) else 0.0
  }

  // ------------------------------------------------------------ streaming_analysis

  datatype StreamingAnalysis = StreamingAnalysis(
    totalStreams: nat, totalTimeMs: int,
    start: Option<int>, end: Option<int>, rangeDays: int,
    uniqueArtists: nat, uniqueTracks: nat, uniqueAlbums: nat)

  /**
   * The streaming section: a start and an end date exactly when some end time
   * parses, in order; the unique counts are the sizes of the per-key counters.
   */
  function StreamingOf(clock: Clock, es: seq<Json>): (r: StreamingAnalysis)
    ensures r.totalStreams == |es|
    ensures r.start.Some? <==> Stamps(clock, es) != []
    ensures r.end.Some? <==> Stamps(clock, es) != []
    ensures r.start.Some? && r.end.Some? ==> r.start.value <= r.end.value
    ensures r.rangeDays >= 0
    ensures r.uniqueArtists == |StreamsBy(es, ArtistOf)| && r.uniqueTracks == |StreamsBy(es, TrackKeyOf)|
    ensures r.uniqueAlbums == |StreamsBy(es, AlbumOf)|
  {
    var st := Stamps(clock, es);
    StreamingAnalysis(
      |es|, Total(es, Ms),
      if st == [] then None else Some(Earliest(st)),
      if st == [] then None else Some(Latest(st)),
      RangeDays(st),
      |DistinctNames(es, ArtistOf)|, |DistinctNames(es, TrackKeyOf)|, |DistinctNames(es, AlbumOf)|)
  }

  // ------------------------------------------------------------ artist_analysis and track_analysis

  /** One line of a top list: a key with its stream count and its milliseconds. */
  datatype Row = Row(key: Json, streams: int, ms: int)

  function Second(p: (Json, int)): int {
    p.1
  }

  /** The top `n` keys by stream count, each with its time. */
  function ByStreams(es: seq<Json>, keyOf: Json -> Json, n: nat): seq<Row> {
    var streams := StreamsBy(es, keyOf);
    var time := TimeBy(es, keyOf);
    var top := Tally.TopN(streams, Second, n);
    seq(|top|, i requires 0 <= i < |top| => Row(top[i].0, top[i].1, Tally.Get(time, top[i].0)))
  }

  /** The top `n` keys by time, each with its stream count. */
  function ByTime(es: seq<Json>, keyOf: Json -> Json, n: nat): seq<Row> {
    var streams := StreamsBy(es, keyOf);
    var time := TimeBy(es, keyOf);
    var top := Tally.TopN(time, Second, n);
    seq(|top|, i requires 0 <= i < |top| => Row(top[i].0, Tally.Get(streams, top[i].0), top[i].1))
  }

  /** The number of entries whose value is at least `t`. */
  function CountAtLeast(c: Tally.Counts<Json>, t: int): (r: nat)
    ensures r <= |c|
  {
    if c == [] then 0 else CountAtLeast(c[..|c| - 1], t) + (if c[|c| - 1].1 >= t then 1 else 0)
  }

  lemma {:induction false} AtLeastOne(c: Tally.Counts<Json>, x: (Json, int), t: int)
    requires x in c && x.1 >= t
    ensures CountAtLeast(c, t) >= 1
  {
    if c[|c| - 1] != x {
      assert x in c[..|c| - 1];
      AtLeastOne(c[..|c| - 1], x, t);
    }
  }

  /**
   * The number of artists whose stream count reaches the value at index
   * `int(n * 0.1)` of the counts sorted in descending order: 0 for no
   * artists, otherwise between 1 and n.
   */
  function TopTenPercent(c: Tally.Counts<Json>): (r: nat)
    ensures c == [] ==> r == 0
    ensures c != [] ==> 1 <= r <= |c|
  {
    if c == [] then 0
    else
      var sorted := Tally.SortDesc(c, Second);
      var x := sorted[|c| / 10];
      assert x in multiset(c);
      AtLeastOne(c, x, x.1);
      CountAtLeast(c, x.1)
  }

  datatype ArtistAnalysis = ArtistAnalysis(
    totalArtists: nat, byStreams: seq<Row>, byTime: seq<Row>,
    topTenPercent: nat, concentration: real)

  /** The artist section: one artist per distinct truthy name, and a concentration that is a percentage. */
  function ArtistAnalysisOf(es: seq<Json>): (r: ArtistAnalysis)
    ensures r.totalArtists == |DistinctNames(es, ArtistOf)|
    ensures r.totalArtists == 0 ==> r.topTenPercent == 0 && r.concentration == 0.0
    ensures r.totalArtists > 0 ==> 1 <= r.topTenPercent <= r.totalArtists
    ensures 0.0 <= r.concentration <= 100.0
  {
    var streams := StreamsBy(es, ArtistOf);
    var top := TopTenPercent(streams);
    PercentBounds(top, |streams|);
    ArtistAnalysis(|streams|, ByStreams(es, ArtistOf, 20), ByTime(es, ArtistOf, 20), top, Percent(top, |streams|))
  }

  datatype TrackAnalysis = TrackAnalysis(totalTracks: nat, avgStreams: real, byStreams: seq<Row>, byTime: seq<Row>)

  /** The track section: one track per distinct track key, and the keyed records spread over the tracks. */
  function TrackAnalysisOf(es: seq<Json>): (r: TrackAnalysis)
    ensures r.totalTracks == |DistinctNames(es, TrackKeyOf)|
    ensures r.totalTracks == 0 ==> r.avgStreams == 0.0
    ensures r.totalTracks > 0 ==> r.avgStreams == (|NamedIndices(es, TrackKeyOf)| as real) / (r.totalTracks as real)
  {
    var streams := StreamsBy(es, TrackKeyOf);
    var keyed := |NamedIndices(es, TrackKeyOf)|;
    assert Tally.SumValues(streams) == keyed by {
      StreamsSum(es, TrackKeyOf);
    }
    var avg := Average(keyed, |streams|);
    TrackAnalysis(|streams|, avg, ByStreams(es, TrackKeyOf, 20), ByTime(es, TrackKeyOf, 20))
  }

  // ------------------------------------------------------------ playlist_analysis

  /** `d[:100] + "..." if len(d) > 100 else d`. */
  function Shorten(d: string): (r: string)
    ensures |d| <= 100 ==> r == d
    ensures |d| > 100 ==> |r| == 103 && r[..100] == d[..100] && r[100..] == "..."
  {
    if |d| > 100 then d[..100] + "..." else d
  }

  datatype PlaylistLine = PlaylistLine(name: Json, followers: Json, tracks: nat, description: string)

  /** One line of the top-playlists list: its follower value is what the total adds, and the description is shortened. */
  function LineOf(p: Json): (r: PlaylistLine)
    ensures Number(r.followers) == Followers(p)
    ensures |r.description| <= 103
  {
    var fs := if p.Obj? then p.fields else [];
    PlaylistLine(GetOr(fs, "name", Str("Unknown")), GetOr(fs, "numberOfFollowers", Int(0)), ItemCount(p), Shorten(TextOf(p, "description")))
  }

  datatype PlaylistAnalysis = PlaylistAnalysis(
    totalPlaylists: nat, totalFollowers: int, totalTracks: int, avgSize: real, top: seq<PlaylistLine>)

  function Items(p: Json): int {
    ItemCount(p)
  }

  /** The playlist section: every playlist is counted, and at most ten of them are listed. */
  function PlaylistAnalysisOf(ps: seq<Json>): (r: PlaylistAnalysis)
    ensures r.totalPlaylists == |ps|
    ensures r.totalTracks >= 0
    ensures |r.top| == if |ps| <= 10 then |ps| else 10
  {
    var top := Tally.TopN(ps, Followers, 10);
    Tally.TopNSpec(ps, Followers, 10);
    PlaylistAnalysis(
      |ps|, Total(ps, Followers), Total(ps, Items), Average(Total(ps, Items), |ps|),
      seq(|top|, i requires 0 <= i < |top| => LineOf(top[i])))
  }

  // ------------------------------------------------------------ temporal_analysis

  function HourOf(s: Stamp): int {
    s.hour
  }

  function WeekdayOf(s: Stamp): string {
    s.weekday
  }

  function MonthOf(s: Stamp): string {
    s.month
  }

  /** The bumps a counter of end times gets: one per end time, under its hour, weekday or month. */
  function Marks<K>(st: seq<Stamp>, f: Stamp -> K): (ps: seq<(K, int)>)
    ensures |ps| == |st|
    ensures forall i :: 0 <= i < |ps| ==> ps[i] == (f(st[i]), 1)
  {
    if st == [] then [] else Marks(st[..|st| - 1], f) + [(f(st[|st| - 1]), 1)]
  }

  /** The number of end times whose hour (weekday, month) is `k`. */
  function CountWith<K(==)>(st: seq<Stamp>, f: Stamp -> K, k: K): nat {
    if st == [] then 0 else CountWith(st[..|st| - 1], f, k) + (if f(st[|st| - 1]) == k then 1 else 0)
  }

  datatype TemporalAnalysis = TemporalAnalysis(
    hourly: Tally.Counts<int>, daily: Tally.Counts<string>, monthly: Tally.Counts<string>,
    peakHour: (int, int), peakDay: (string, int))

  /**
   * The temporal section: each counter holds, for every hour (weekday,
   * month), the number of end times in it; without end times the peaks are
   * the defaults.
   */
  function TemporalOf(clock: Clock, es: seq<Json>): (r: TemporalAnalysis)
    ensures forall h :: Tally.Get(r.hourly, h) == CountWith(Stamps(clock, es), HourOf, h)
    ensures forall d :: Tally.Get(r.daily, d) == CountWith(Stamps(clock, es), WeekdayOf, d)
    ensures forall m :: Tally.Get(r.monthly, m) == CountWith(Stamps(clock, es), MonthOf, m)
    ensures Stamps(clock, es) == [] ==> r.peakHour == (0, 0) && r.peakDay == ("Unknown", 0)
  {
    MarksCount(Stamps(clock, es), HourOf);
    MarksCount(Stamps(clock, es), WeekdayOf);
    MarksCount(Stamps(clock, es), MonthOf);
    var st := Stamps(clock, es);
    var hourly := Tally.Fold(Marks(st, HourOf));
    var daily := Tally.Fold(Marks(st, WeekdayOf));
    TemporalAnalysis(hourly, daily, Tally.Fold(Marks(st, MonthOf)), Tally.Peak(hourly, (0, 0)), Tally.Peak(daily, ("Unknown", 0)))
  }

  // ------------------------------------------------------------ summary

  /** The counts read back from the privacy analysis report. */
  datatype PrivacyCounts = PrivacyCounts(filesAnalyzed: int, safeFiles: nat, riskyFiles: nat)

  datatype Summary = Summary(
    totalStreams: int, uniqueArtists: int, uniqueTracks: int, totalPlaylists: int,
    rangeDays: int, streamsPerDay: real, safe: bool)

  function StatusText(safe: bool): string {
    if safe then "✅ Safe" else "⚠️ Needs Review"
  }

  /** `generate_summary`: each missing section reads as its defaults. */
  function SummaryOf(s: Option<StreamingAnalysis>, p: Option<PlaylistAnalysis>, privacy: Option<PrivacyCounts>): (r: Summary)
    ensures r.safe <==> privacy.Some? && privacy.value.safeFiles > privacy.value.riskyFiles
    ensures s.None? ==> r.totalStreams == 0 && r.uniqueArtists == 0 && r.uniqueTracks == 0 && r.rangeDays == 0 && r.streamsPerDay == 0.0
    ensures s.Some? && s.value.rangeDays >= 1 ==> r.streamsPerDay * (s.value.rangeDays as real) == r.totalStreams as real
    ensures s.Some? && s.value.rangeDays < 1 ==> r.streamsPerDay == r.totalStreams as real
    ensures p.None? ==> r.totalPlaylists == 0
  {
    var days := if s.Some? then s.value.rangeDays else 0;
    var streams := if s.Some? then s.value.totalStreams else 0;
    Summary(
      streams,
      if s.Some? then s.value.uniqueArtists else 0,
      if s.Some? then s.value.uniqueTracks else 0,
      if p.Some? then p.value.totalPlaylists else 0,
      days,
      PerDay(streams, days),
      privacy.Some? && privacy.value.safeFiles > privacy.value.riskyFiles)
  }

  /** `total_streams / max(date_range_days, 1)`. */
  function PerDay(total: int, days: int): (r: real)
    ensures days >= 1 ==> r * (days as real) == total as real
    ensures days < 1 ==> r == total as real
  {
    var d := if days > 1 then days else 1;
    QuotientTimes(total as real, d as real);
    (total as real) / (d as real)
  }

  // ------------------------------------------------------------ lemmas

  /** A quotient times its divisor gives back the dividend. */
  lemma QuotientTimes(x: real, d: real)
    requires d != 0.0
    ensures (x / d) * d == x
  {
  }

  /** The distinct-count of the streaming section and the size of the matching counter agree. */
  lemma UniqueCountsAgree(clock: Clock, es: seq<Json>)
    ensures StreamingOf(clock, es).uniqueArtists == ArtistAnalysisOf(es).totalArtists
    ensures StreamingOf(clock, es).uniqueTracks == TrackAnalysisOf(es).totalTracks
  {
    CounterSize(es, ArtistOf, One);
    CounterSize(es, TrackKeyOf, One);
  }

  lemma {:induction false} TotalOne(es: seq<Json>)
    ensures Total(es, One) == |es|
  {
    if es != [] {
      TotalOne(es[..|es| - 1]);
    }
  }

  /**
   * When every record names its artist, the artist counters account for
   * every stream and every millisecond of the streaming section.
   */
  lemma ArtistsCoverAll(clock: Clock, es: seq<Json>)
    requires forall i :: 0 <= i < |es| ==> ArtistOf(es[i]) != Null
    ensures Tally.SumValues(StreamsBy(es, ArtistOf)) == StreamingOf(clock, es).totalStreams
    ensures Tally.SumValues(TimeBy(es, ArtistOf)) == StreamingOf(clock, es).totalTimeMs
  {
    Tally.FoldSum(Keyed(es, ArtistOf, One));
    KeyedTotal(es, ArtistOf, One);
    AllNamedTotal(es, ArtistOf, One);
    TotalOne(es);
    TimeSum(es, ArtistOf);
    AllNamedTotal(es, ArtistOf, Ms);
  }

  /** An entry of a counter with distinct keys is what the counter holds for its key. */
  lemma EntryValue(c: Tally.Counts<Json>, x: (Json, int))
    requires Tally.DistinctKeys(c) && x in multiset(c)
    ensures Tally.Get(c, x.0) == x.1
  {
    var j :| 0 <= j < |c| && c[j] == x;
    Tally.GetDistinct(c, j);
  }

  /** A top-by-streams list holds min(n, number of keys) rows. */
  lemma ByStreamsLength(es: seq<Json>, keyOf: Json -> Json, n: nat)
    ensures var k := |DistinctNames(es, keyOf)|; |ByStreams(es, keyOf, n)| == if k <= n then k else n
  {
    CounterSize(es, keyOf, One);
    Tally.TopNSpec(StreamsBy(es, keyOf), Second, n);
  }

  /** A top-by-streams list is in descending stream order. */
  lemma ByStreamsOrder(es: seq<Json>, keyOf: Json -> Json, n: nat)
    ensures var rows := ByStreams(es, keyOf, n);
      forall i, j :: 0 <= i < j < |rows| ==> rows[i].streams >= rows[j].streams
  {
    Tally.TopNSpec(StreamsBy(es, keyOf), Second, n);
  }

  /** Each row of a top-by-streams list carries its key's record count and total msPlayed. */
  lemma ByStreamsValues(es: seq<Json>, keyOf: Json -> Json, n: nat)
    ensures var rows := ByStreams(es, keyOf, n);
      forall i :: 0 <= i < |rows| ==> rows[i].streams == CountOfKey(es, keyOf, rows[i].key) && rows[i].ms == MsOfKey(es, keyOf, rows[i].key)
  {
    var streams := StreamsBy(es, keyOf);
    var top := Tally.TopN(streams, Second, n);
    var rows := ByStreams(es, keyOf, n);
    Tally.TopNSpec(streams, Second, n);
    Tally.FoldDistinct(Keyed(es, keyOf, One));
    forall i | 0 <= i < |rows|
      ensures rows[i].streams == CountOfKey(es, keyOf, rows[i].key) && rows[i].ms == MsOfKey(es, keyOf, rows[i].key)
    {
      assert top[i] in multiset(streams);
      EntryValue(streams, top[i]);
      CounterValues(es, keyOf, top[i].0);
    }
  }

  /** A top-by-time list holds min(n, number of keys) rows. */
  lemma ByTimeLength(es: seq<Json>, keyOf: Json -> Json, n: nat)
    ensures var k := |DistinctNames(es, keyOf)|; |ByTime(es, keyOf, n)| == if k <= n then k else n
  {
    CounterSize(es, keyOf, Ms);
    Tally.TopNSpec(TimeBy(es, keyOf), Second, n);
  }

  /** A top-by-time list is in descending order of milliseconds. */
  lemma ByTimeOrder(es: seq<Json>, keyOf: Json -> Json, n: nat)
    ensures var rows := ByTime(es, keyOf, n);
      forall i, j :: 0 <= i < j < |rows| ==> rows[i].ms >= rows[j].ms
  {
    Tally.TopNSpec(TimeBy(es, keyOf), Second, n);
  }

  /** Each row of a top-by-time list carries its key's record count and total msPlayed. */
  lemma ByTimeValues(es: seq<Json>, keyOf: Json -> Json, n: nat)
    ensures var rows := ByTime(es, keyOf, n);
      forall i :: 0 <= i < |rows| ==> rows[i].streams == CountOfKey(es, keyOf, rows[i].key) && rows[i].ms == MsOfKey(es, keyOf, rows[i].key)
  {
    var time := TimeBy(es, keyOf);
    var top := Tally.TopN(time, Second, n);
    var rows := ByTime(es, keyOf, n);
    Tally.TopNSpec(time, Second, n);
    Tally.FoldDistinct(Keyed(es, keyOf, Ms));
    forall i | 0 <= i < |rows|
      ensures rows[i].streams == CountOfKey(es, keyOf, rows[i].key) && rows[i].ms == MsOfKey(es, keyOf, rows[i].key)
    {
      assert top[i] in multiset(time);
      EntryValue(time, top[i]);
      CounterValues(es, keyOf, top[i].0);
    }
  }

  /** A share of a whole is a percentage between 0 and 100. */
  lemma PercentBounds(part: int, whole: nat)
    requires 0 <= part <= whole
    ensures 0.0 <= Percent(part, whole) <= 100.0
  {
    if whole > 0 {
      assert (part as real) / (whole as real) <= 1.0;
    }
  }

  /** The concentration ratio is a percentage: 0 without artists, otherwise between 0 and 100. */
  lemma ConcentrationBounds(es: seq<Json>)
    ensures ArtistAnalysisOf(es).totalArtists == 0 ==> ArtistAnalysisOf(es).concentration == 0.0
    ensures 0.0 <= ArtistAnalysisOf(es).concentration <= 100.0
  {
    var streams := StreamsBy(es, ArtistOf);
    PercentBounds(TopTenPercent(streams), |streams|);
  }

  /** Streams per track: 0 without tracks, otherwise the records with both names spread over the tracks. */
  lemma TrackAverage(es: seq<Json>)
    ensures var t := TrackAnalysisOf(es);
      t.totalTracks == 0 ==> t.avgStreams == 0.0
    ensures var t := TrackAnalysisOf(es);
      t.totalTracks > 0 ==> t.avgStreams == (|NamedIndices(es, TrackKeyOf)| as real) / (t.totalTracks as real)
  {
    StreamsSum(es, TrackKeyOf);
  }

  /** The top-playlists list holds min(10, n) lines; each description is at most 103 characters. */
  lemma TopPlaylistsLength(ps: seq<Json>)
    ensures var top := PlaylistAnalysisOf(ps).top;
      |top| == (if |ps| <= 10 then |ps| else 10) && forall i :: 0 <= i < |top| ==> |top[i].description| <= 103
  {
    var top := Tally.TopN(ps, Followers, 10);
    assert |top| == (if |ps| <= 10 then |ps| else 10) by {
      Tally.TopNSpec(ps, Followers, 10);
    }
  }

  /** A line's follower value is what the follower total adds for its playlist. */
  lemma LineFollowers(p: Json)
    ensures Number(LineOf(p).followers) == Followers(p)
  {
  }

  /** The top-playlists list is in descending follower order. */
  lemma TopPlaylistsOrder(ps: seq<Json>)
    ensures var top := PlaylistAnalysisOf(ps).top;
      forall i, j :: 0 <= i < j < |top| ==> Number(top[i].followers) >= Number(top[j].followers)
  {
    var top := Tally.TopN(ps, Followers, 10);
    assert Tally.Descending(top, Followers) by {
      Tally.TopNSpec(ps, Followers, 10);
    }
    var lines := PlaylistAnalysisOf(ps).top;
    assert |lines| == |top|;
    forall i, j | 0 <= i < j < |lines|
      ensures Number(lines[i].followers) >= Number(lines[j].followers)
    {
      assert lines[i] == LineOf(top[i]) && lines[j] == LineOf(top[j]);
      LineFollowers(top[i]);
      LineFollowers(top[j]);
      assert Followers(top[i]) >= Followers(top[j]);
    }
  }

  /** A counter of marks holds, for every key, the number of end times under it. */
  lemma MarksCount<K>(st: seq<Stamp>, f: Stamp -> K)
    ensures forall k :: Tally.Get(Tally.Fold(Marks(st, f)), k) == CountWith(st, f, k)
  {
    forall k
      ensures Tally.Get(Tally.Fold(Marks(st, f)), k) == CountWith(st, f, k)
    {
      Tally.FoldGet(Marks(st, f), k);
      MarksWeight(st, f, k);
    }
  }

  lemma {:induction false} MarksWeight<K>(st: seq<Stamp>, f: Stamp -> K, k: K)
    ensures Tally.WeightOf(Marks(st, f), k) == CountWith(st, f, k)
  {
    if st != [] {
      MarksWeight(st[..|st| - 1], f, k);
      assert Marks(st, f)[..|st| - 1] == Marks(st[..|st| - 1], f);
    }
  }

  /**
   * The peak hour is (0, 0) and the peak day ("Unknown", 0) when no end time
   * parses; otherwise each is a key with the most end times, paired with that
   * number.
   */
  lemma PeakListening(clock: Clock, es: seq<Json>)
    ensures Stamps(clock, es) == [] ==> TemporalOf(clock, es).peakHour == (0, 0) && TemporalOf(clock, es).peakDay == ("Unknown", 0)
    ensures Stamps(clock, es) != [] ==>
      var st := Stamps(clock, es);
      var h := TemporalOf(clock, es).peakHour;
      h.1 == CountWith(st, HourOf, h.0) && forall hour :: CountWith(st, HourOf, hour) <= h.1
    ensures Stamps(clock, es) != [] ==>
      var st := Stamps(clock, es);
      var d := TemporalOf(clock, es).peakDay;
      d.1 == CountWith(st, WeekdayOf, d.0) && forall day :: CountWith(st, WeekdayOf, day) <= d.1
  {
    var st := Stamps(clock, es);
    MarksPeak(st, HourOf, (0, 0));
    MarksPeak(st, WeekdayOf, ("Unknown", 0));
  }

  /** The peak of a counter of marks: the default when there are none, otherwise a most frequent key and its count. */
  lemma MarksPeak<K>(st: seq<Stamp>, f: Stamp -> K, default: (K, int))
    ensures st == [] ==> Tally.Peak(Tally.Fold(Marks(st, f)), default) == default
    ensures st != [] ==>
      var p := Tally.Peak(Tally.Fold(Marks(st, f)), default);
      p.1 == CountWith(st, f, p.0) && forall k :: CountWith(st, f, k) <= p.1
  {
    Tally.FoldPeak(Marks(st, f), default);
    forall k {
      MarksWeight(st, f, k);
    }
  }

  // ------------------------------------------------------------ the counting loops

  /** The loop collecting the parsed end times. */
  method CollectStamps(clock: Clock, es: seq<Json>) returns (st: seq<Stamp>)
    ensures st == Stamps(clock, es)
  {
    st := [];
    var i := 0;
    while i < |es|
      invariant 0 <= i <= |es|
      invariant st == Stamps(clock, es[..i])
    {
      assert es[..i + 1][..i] == es[..i];
      var s := StampOf(clock, es[i]);
      if s.Some? {
        st := st + [s.value];
      }
      i := i + 1;
    }
    assert es[..i] == es;
  }

  /** The loop of `analyze_artists` and `analyze_tracks`: streams and milliseconds per truthy key. */
  method CountPlays(es: seq<Json>, keyOf: Json -> Json) returns (streams: Tally.Counts<Json>, time: Tally.Counts<Json>)
    ensures streams == StreamsBy(es, keyOf)
    ensures time == TimeBy(es, keyOf)
  {
    streams, time := [], [];
    var i := 0;
    while i < |es|
      invariant 0 <= i <= |es|
      invariant streams == Tally.Fold(Keyed(es[..i], keyOf, One))
      invariant time == Tally.Fold(Keyed(es[..i], keyOf, Ms))
    {
      KeyedSnoc(es, keyOf, One, i);
      KeyedSnoc(es, keyOf, Ms, i);
      var key := keyOf(es[i]);
      if key != Null {
        Tally.FoldSnoc(Keyed(es[..i], keyOf, One), (key, 1));
        Tally.FoldSnoc(Keyed(es[..i], keyOf, Ms), (key, Ms(es[i])));
        streams := Tally.Bump(streams, key, 1);
        time := Tally.Bump(time, key, Ms(es[i]));
      } else {
        assert Keyed(es[..i + 1], keyOf, One) == Keyed(es[..i], keyOf, One);
        assert Keyed(es[..i + 1], keyOf, Ms) == Keyed(es[..i], keyOf, Ms);
      }
      i := i + 1;
    }
    assert es[..i] == es;
  }

  lemma StampsSnoc(clock: Clock, es: seq<Json>, i: nat)
    requires i < |es|
    ensures Stamps(clock, es[..i + 1]) == Stamps(clock, es[..i]) + (if StampOf(clock, es[i]).Some? then [StampOf(clock, es[i]).value] else [])
  {
    assert es[..i + 1][..i] == es[..i];
  }

  /** Counting one more end time bumps its key by one. */
  lemma MarkStep<K>(st: seq<Stamp>, s: Stamp, f: Stamp -> K)
    ensures Tally.Fold(Marks(st + [s], f)) == Tally.Bump(Tally.Fold(Marks(st, f)), f(s), 1)
  {
    assert (st + [s])[..|st|] == st;
    assert Marks(st + [s], f) == Marks(st, f) + [(f(s), 1)];
    Tally.FoldSnoc(Marks(st, f), (f(s), 1));
  }

  /** The three counters hold the end times `st`, by hour, weekday and month. */
  ghost predicate Counted(st: seq<Stamp>, hourly: Tally.Counts<int>, daily: Tally.Counts<string>, monthly: Tally.Counts<string>) {
    && hourly == Tally.Fold(Marks(st, HourOf))
    && daily == Tally.Fold(Marks(st, WeekdayOf))
    && monthly == Tally.Fold(Marks(st, MonthOf))
  }

  lemma CountedStep(st: seq<Stamp>, date: Stamp, hourly: Tally.Counts<int>, daily: Tally.Counts<string>, monthly: Tally.Counts<string>)
    requires Counted(st, hourly, daily, monthly)
    ensures Counted(st + [date], Tally.Bump(hourly, date.hour, 1), Tally.Bump(daily, date.weekday, 1), Tally.Bump(monthly, date.month, 1))
  {
    MarkStep(st, date, HourOf);
    MarkStep(st, date, WeekdayOf);
    MarkStep(st, date, MonthOf);
  }

  /** The loop of `analyze_temporal_patterns`: end times per hour, weekday and month. */
  method CountTemporal(clock: Clock, es: seq<Json>)
    returns (hourly: Tally.Counts<int>, daily: Tally.Counts<string>, monthly: Tally.Counts<string>)
    ensures hourly == Tally.Fold(Marks(Stamps(clock, es), HourOf))
    ensures daily == Tally.Fold(Marks(Stamps(clock, es), WeekdayOf))
    ensures monthly == Tally.Fold(Marks(Stamps(clock, es), MonthOf))
  {
    hourly, daily, monthly := [], [], [];
    var i := 0;
    while i < |es|
      invariant 0 <= i <= |es|
      invariant Counted(Stamps(clock, es[..i]), hourly, daily, monthly)
    {
      ghost var st := Stamps(clock, es[..i]);
      StampsSnoc(clock, es, i);
      var s := StampOf(clock, es[i]);
      if s.Some? {
        var date := s.value;
        CountedStep(st, date, hourly, daily, monthly);
        hourly := Tally.Bump(hourly, date.hour, 1);
        daily := Tally.Bump(daily, date.weekday, 1);
        monthly := Tally.Bump(monthly, date.month, 1);
      } else {
        assert Stamps(clock, es[..i + 1]) == st;
      }
      i := i + 1;
    }
    assert es[..i] == es;
  }

  // ------------------------------------------------------------ the report

  /** `SpotifyDiagnosticReport` over the loaded streaming history and playlists. */
  class DiagnosticReport {
    const history: seq<Json>
    const playlists: seq<Json>
    const clock: Clock
    var streaming: Option<StreamingAnalysis>
    var artists: Option<ArtistAnalysis>
    var tracks: Option<TrackAnalysis>
    var playlistAnalysis: Option<PlaylistAnalysis>
    var temporal: Option<TemporalAnalysis>
    var privacy: Option<PrivacyCounts>
    var summary: Option<Summary>

    /** The analyses index every record and playlist as a dict, so the data must have that shape. */
    constructor(history: seq<Json>, playlists: seq<Json>, clock: Clock)
      requires PlayRecords(history)
      requires forall i :: 0 <= i < |playlists| ==> PlaylistRecord(playlists[i])
      ensures this.history == history && this.playlists == playlists && this.clock == clock
      ensures streaming.None? && artists.None? && tracks.None? && playlistAnalysis.None?
      ensures temporal.None? && privacy.None? && summary.None?
    {
      this.history := history;
      this.playlists := playlists;
      this.clock := clock;
      streaming, artists, tracks, playlistAnalysis := None, None, None, None;
      temporal, privacy, summary := None, None, None;
    }

    /** `analyze_streaming_data`: no records leaves the section unset. */
    method AnalyzeStreamingData()
      modifies this`streaming
      ensures history == [] ==> streaming == old(streaming)
      ensures history != [] ==> streaming == Some(StreamingOf(clock, history))
    {
      if history == [] {
        return;
      }
      var st := CollectStamps(clock, history);
      streaming := Some(StreamingAnalysis(
        |history|, Total(history, Ms),
        if st == [] then None else Some(Earliest(st)),
        if st == [] then None else Some(Latest(st)),
        RangeDays(st),
        |DistinctNames(history, ArtistOf)|, |DistinctNames(history, TrackKeyOf)|, |DistinctNames(history, AlbumOf)|));
    }

    /** `analyze_artists`. */
    method AnalyzeArtists()
      modifies this`artists
      ensures history == [] ==> artists == old(artists)
      ensures history != [] ==> artists == Some(ArtistAnalysisOf(history))
    {
      if history == [] {
        return;
      }
      var streams, time := CountPlays(history, ArtistOf);
      var top := TopTenPercent(streams);
      artists := Some(ArtistAnalysis(|streams|, ByStreams(history, ArtistOf, 20), ByTime(history, ArtistOf, 20), top, Percent(top, |streams|)));
    }

    /** `analyze_tracks`. */
    method AnalyzeTracks()
      modifies this`tracks
      ensures history == [] ==> tracks == old(tracks)
      ensures history != [] ==> tracks == Some(TrackAnalysisOf(history))
    {
      if history == [] {
        return;
      }
      var streams, time := CountPlays(history, TrackKeyOf);
      StreamsSum(history, TrackKeyOf);
      tracks := Some(TrackAnalysis(|streams|, Average(Tally.SumValues(streams), |streams|),
                                   ByStreams(history, TrackKeyOf, 20), ByTime(history, TrackKeyOf, 20)));
    }

    /** `analyze_playlists`: no playlists leaves the section unset. */
    method AnalyzePlaylists()
      modifies this`playlistAnalysis
      ensures playlists == [] ==> playlistAnalysis == old(playlistAnalysis)
      ensures playlists != [] ==> playlistAnalysis == Some(PlaylistAnalysisOf(playlists))
    {
      if playlists == [] {
        return;
      }
      playlistAnalysis := Some(PlaylistAnalysisOf(playlists));
    }

    /** `analyze_temporal_patterns`. */
    method AnalyzeTemporalPatterns()
      modifies this`temporal
      ensures history == [] ==> temporal == old(temporal)
      ensures history != [] ==> temporal == Some(TemporalOf(clock, history))
    {
      if history == [] {
        return;
      }
      var hourly, daily, monthly := CountTemporal(clock, history);
      temporal := Some(TemporalAnalysis(hourly, daily, monthly, Tally.Peak(hourly, (0, 0)), Tally.Peak(daily, ("Unknown", 0))));
    }

    /** The privacy part of `load_privacy_summary`: the counts of the privacy report, when there is one. */
    method LoadPrivacySummary(report: Option<PrivacyCounts>)
      modifies this`privacy
      ensures report.Some? ==> privacy == report
      ensures report.None? ==> privacy == old(privacy)
    {
      if report.Some? {
        privacy := report;
      }
    }

    /** `generate_summary`. */
    method GenerateSummary()
      modifies this`summary
      ensures summary == Some(SummaryOf(streaming, playlistAnalysis, privacy))
    {
      summary := Some(SummaryOf(streaming, playlistAnalysis, privacy));
    }
  }
}
