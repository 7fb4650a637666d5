/**
 * Streaming records as the report scripts read them: `entry.get("artistName", "")`,
 * `entry.get("msPlayed", 0)`, the "track - artist" key, and the per-key
 * counters and distinct counts built over a list of records.
 *
 * A counter key is the JSON value a script hashes: the name itself for
 * artists and albums, the formatted string for tracks. `Null` stands for "no
 * key": the name is falsy and the record is not counted.
 */
module Plays {
  import opened JsonValue
  import Tally

  /** A name a script can hash and format: absent, falsy, or a string, number or boolean (not a list or dict). */
  predicate NameField(fs: seq<(string, Json)>, k: string) {
    match Lookup(fs, k)
    case None => true
    case Some(v) => !Truthy(v) || v.Str? || v.Int? || v.Bool?
  }

  /** A text the report measures with `len`: absent, falsy, or a string. */
  predicate TextField(fs: seq<(string, Json)>, k: string) {
    match Lookup(fs, k)
    case None => true
    case Some(v) => v.Str? || !Truthy(v)
  }

  /** A record `sum` can add and whose artist and track names can be hashed and formatted. */
  predicate ArtistTrackRecord(e: Json) {
    && e.Obj?
    && NameField(e.fields, "artistName")
    && NameField(e.fields, "trackName")
    && match Lookup(e.fields, "msPlayed")
       case None => true
       case Some(v) => v.Int? || v.Bool?
  }

  /** What the diagnostic report needs of a record: the above, and a hashable album name. */
  predicate PlayRecord(e: Json) {
    ArtistTrackRecord(e) && NameField(e.fields, "albumName")
  }

  predicate PlayRecords(es: seq<Json>) {
    forall i :: 0 <= i < |es| ==> PlayRecord(es[i])
  }

  /** `entry.get(k)`, with `None` for a missing key or a record that is not a dict. */
  function Field(e: Json, k: string): Json {
    if e.Obj? then GetOr(e.fields, k, Null) else Null
  }

  /**
   * The key a dict or set files a value under: `True == 1` in Python, so a
   * true name shares the key of the number 1.
   */
  function Canon(v: Json): (r: Json)
    ensures r.Bool? ==> r == v && !v.b
  {
    if v == Bool(true) then Int(1) else v
  }

  /** `if name: counter[name] += ...`: the key of a truthy name, `Null` for a falsy one. */
  function Name(e: Json, k: string): (r: Json)
    ensures r != Null <==> Truthy(Field(e, k))
    ensures r != Null ==> r == Canon(Field(e, k))
  {
    var v := Field(e, k);
    if Truthy(v) then Canon(v) else Null
  }

  /** Python dict and set equality on names: two truthy names share a key exactly when they are equal or are `True` and 1. */
  lemma NameKeys(e: Json, d: Json, k: string)
    requires Truthy(Field(e, k)) && Truthy(Field(d, k))
    ensures Name(e, k) == Name(d, k) <==>
      Field(e, k) == Field(d, k) || {Field(e, k), Field(d, k)} == {Bool(true), Int(1)}
  {
  }

  /** For a dict record, a name gives a key exactly when it is present and truthy. */
  lemma NameTruthy(e: Json, k: string)
    requires e.Obj?
    ensures Name(e, k) != Null <==> (HasKey(e.fields, k) && Truthy(GetOr(e.fields, k, Null)))
  {
    if HasKey(e.fields, k) {
      assert Field(e, k) == GetOr(e.fields, k, Null);
    }
  }

  function ArtistOf(e: Json): Json {
    Name(e, "artistName")
  }

  function AlbumOf(e: Json): Json {
    Name(e, "albumName")
  }

  /** `str(v)` for the names a record can hold: a string as itself, a number in decimal, a boolean as True or False. */
  function StrOf(v: Json): (r: string)
    ensures v.Str? ==> r == v.s
    ensures v.Int? && DigitsOf(v.i) <= MaxStrDigits ==> ParseInt(r) == Some(v.i)
  {
    match v
    case Str(s) => s
    case Int(i) => if DigitsOf(i) <= MaxStrDigits then IntToStringParses(i); IntToString(i) else IntToString(i)
    case Bool(b) => if b then "True" else "False"
    case Null => "None"
    case _ => ""
  }

  /** `f"{trackName} - {artistName}"` when both are truthy, `Null` otherwise. */
  function TrackKeyOf(e: Json): (r: Json)
    ensures r != Null <==> Truthy(Field(e, "trackName")) && Truthy(Field(e, "artistName"))
    ensures r != Null ==> r == Str(StrOf(Field(e, "trackName")) + " - " + StrOf(Field(e, "artistName")))
  {
    var track, artist := Field(e, "trackName"), Field(e, "artistName");
    if Truthy(track) && Truthy(artist) then Str(StrOf(track) + " - " + StrOf(artist)) else Null
  }

  /** The text of a field that is absent, falsy or a string: `entry.get(k, "") or ""`. */
  function TextOf(e: Json, k: string): string {
    match Field(e, k)
    case Str(s) => s
    case _ => ""
  }

  /** `entry.get("msPlayed", 0)` as `sum` adds it (True counts 1). */
  function Ms(e: Json): int {
    if e.Obj? then
      match Lookup(e.fields, "msPlayed")
      case Some(Int(i)) => i
      case Some(Bool(b)) => if b then 1 else 0
      case _ => 0
    else 0
  }

  function One(e: Json): int {
    1
  }

  /** `sum(weight(e) for e in es)`, e.g. the total msPlayed. */
  function Total(es: seq<Json>, weight: Json -> int): (r: int)
    ensures (forall i :: 0 <= i < |es| ==> weight(es[i]) >= 0) ==> r >= 0
  {
    if es == [] then 0 else Total(es[..|es| - 1], weight) + weight(es[|es| - 1])
  }

  /** The sum of `weight` over the records whose key is truthy. */
  function NamedTotal(es: seq<Json>, keyOf: Json -> Json, weight: Json -> int): int {
    if es == [] then 0
    else NamedTotal(es[..|es| - 1], keyOf, weight) + (if keyOf(es[|es| - 1]) != Null then weight(es[|es| - 1]) else 0)
  }

  /**
   * The (key, weight) pairs a counting loop adds, one per record whose key is
   * truthy, in record order.
   */
  function Keyed(es: seq<Json>, keyOf: Json -> Json, weight: Json -> int): (ps: seq<(Json, int)>)
    ensures |ps| <= |es|
  {
    if es == [] then []
    else
      var e := es[|es| - 1];
      Keyed(es[..|es| - 1], keyOf, weight) + (if keyOf(e) != Null then [(keyOf(e), weight(e))] else [])
  }

  /** The indices of the records whose key is truthy. */
  function NamedIndices(es: seq<Json>, keyOf: Json -> Json): set<int> {
    set i | 0 <= i < |es| && keyOf(es[i]) != Null
  }

  /** `set(keyOf(e) for e in es if keyOf(e))`. */
  function DistinctNames(es: seq<Json>, keyOf: Json -> Json): (r: set<Json>)
    ensures Null !in r
    ensures forall i :: 0 <= i < |es| && keyOf(es[i]) != Null ==> keyOf(es[i]) in r
  {
    set i | 0 <= i < |es| && keyOf(es[i]) != Null :: keyOf(es[i])
  }

  /** The counter of records per key, e.g. artist_streams. */
  function StreamsBy(es: seq<Json>, keyOf: Json -> Json): (r: Tally.Counts<Json>)
    ensures Tally.DistinctKeys(r)
    ensures |r| == |DistinctNames(es, keyOf)|
  {
    Tally.FoldDistinct(Keyed(es, keyOf, One));
    CounterSize(es, keyOf, One);
    Tally.Fold(Keyed(es, keyOf, One))
  }

  /** The counter of milliseconds per key, e.g. artist_time. */
  function TimeBy(es: seq<Json>, keyOf: Json -> Json): (r: Tally.Counts<Json>)
    ensures Tally.DistinctKeys(r)
    ensures |r| == |DistinctNames(es, keyOf)|
  {
    Tally.FoldDistinct(Keyed(es, keyOf, Ms));
    CounterSize(es, keyOf, Ms);
    Tally.Fold(Keyed(es, keyOf, Ms))
  }

  // ------------------------------------------------------------ lemmas

  lemma {:induction false} KeyedKeys(es: seq<Json>, keyOf: Json -> Json, weight: Json -> int)
    ensures forall k :: k in Tally.PairKeys(Keyed(es, keyOf, weight)) <==> k in DistinctNames(es, keyOf)
  {
    if es != [] {
      var p := es[..|es| - 1];
      var e := es[|es| - 1];
      KeyedKeys(p, keyOf, weight);
      var ps := Keyed(es, keyOf, weight);
      var pp := Keyed(p, keyOf, weight);
      var tail := if keyOf(e) != Null then [(keyOf(e), weight(e))] else [];
      assert ps == pp + tail;
      forall k
        ensures k in Tally.PairKeys(ps) <==> k in DistinctNames(es, keyOf)
      {
        if k in Tally.PairKeys(ps) {
          var j :| 0 <= j < |ps| && ps[j].0 == k;
          if j < |pp| {
            assert pp[j].0 == k && k in Tally.PairKeys(pp);
            var i :| 0 <= i < |p| && keyOf(p[i]) != Null && keyOf(p[i]) == k;
            assert es[i] == p[i];
          } else {
            assert k == keyOf(es[|es| - 1]);
          }
        }
        if k in DistinctNames(es, keyOf) {
          var i :| 0 <= i < |es| && keyOf(es[i]) != Null && keyOf(es[i]) == k;
          if i < |p| {
            assert p[i] == es[i];
            assert k in DistinctNames(p, keyOf);
            var j :| 0 <= j < |pp| && pp[j].0 == k;
            assert ps[j] == pp[j];
          } else {
            assert ps[|pp|].0 == k;
          }
        }
      }
    }
  }

  /** One more record adds its (key, weight) pair when its key is truthy, and nothing otherwise. */
  lemma KeyedSnoc(es: seq<Json>, keyOf: Json -> Json, weight: Json -> int, i: nat)
    requires i < |es|
    ensures Keyed(es[..i + 1], keyOf, weight)
         == Keyed(es[..i], keyOf, weight) + (if keyOf(es[i]) != Null then [(keyOf(es[i]), weight(es[i]))] else [])
  {
    assert es[..i + 1][..i] == es[..i];
  }

  /** The counter holds one entry per distinct truthy key: len(artist_streams) == unique artists. */
  lemma CounterSize(es: seq<Json>, keyOf: Json -> Json, weight: Json -> int)
    ensures |Tally.Fold(Keyed(es, keyOf, weight))| == |DistinctNames(es, keyOf)|
  {
    Tally.FoldSize(Keyed(es, keyOf, weight));
    KeyedKeys(es, keyOf, weight);
    assert (set k | k in Tally.PairKeys(Keyed(es, keyOf, weight))) == DistinctNames(es, keyOf);
  }

  lemma {:induction false} KeyedCount(es: seq<Json>, keyOf: Json -> Json)
    ensures Tally.TotalWeight(Keyed(es, keyOf, One)) == |NamedIndices(es, keyOf)|
  {
    if es != [] {
      var p := es[..|es| - 1];
      var n := |es| - 1;
      KeyedCount(p, keyOf);
      var pp := Keyed(p, keyOf, One);
      var tail := if keyOf(es[n]) != Null then [(keyOf(es[n]), 1)] else [];
      assert Keyed(es, keyOf, One) == pp + tail;
      TotalWeightAppend(pp, tail);
      NamedIndicesSnoc(es, keyOf);
    }
  }

  lemma NamedIndicesSnoc(es: seq<Json>, keyOf: Json -> Json)
    requires es != []
    ensures |NamedIndices(es, keyOf)|
         == |NamedIndices(es[..|es| - 1], keyOf)| + (if keyOf(es[|es| - 1]) != Null then 1 else 0)
  {
    var n := |es| - 1;
    var p := es[..n];
    var a := NamedIndices(p, keyOf);
    assert forall i :: i in a ==> 0 <= i < n;
    if keyOf(es[n]) != Null {
      assert NamedIndices(es, keyOf) == a + {n};
    } else {
      assert NamedIndices(es, keyOf) == a;
    }
  }

  lemma {:induction false} TotalWeightAppend(a: seq<(Json, int)>, b: seq<(Json, int)>)
    requires |b| <= 1
    ensures Tally.TotalWeight(a + b) == Tally.TotalWeight(a) + (if b == [] then 0 else b[0].1)
  {
    if b != [] {
      assert (a + b)[..|a + b| - 1] == a;
    } else {
      assert a + b == a;
    }
  }

  /** Summed over all keys, the per-key stream counts equal the number of records with a truthy key. */
  lemma StreamsSum(es: seq<Json>, keyOf: Json -> Json)
    ensures Tally.SumValues(StreamsBy(es, keyOf)) == |NamedIndices(es, keyOf)|
  {
    Tally.FoldSum(Keyed(es, keyOf, One));
    KeyedCount(es, keyOf);
  }

  /** The milliseconds of the records with key `k`. */
  function MsOfKey(es: seq<Json>, keyOf: Json -> Json, k: Json): int {
    if es == [] then 0
    else MsOfKey(es[..|es| - 1], keyOf, k) + (if keyOf(es[|es| - 1]) == k && k != Null then Ms(es[|es| - 1]) else 0)
  }

  /** The number of records with key `k`. */
  function CountOfKey(es: seq<Json>, keyOf: Json -> Json, k: Json): nat {
    |KeyIndices(es, keyOf, k)|
  }

  lemma {:induction false} KeyedMsOf(es: seq<Json>, keyOf: Json -> Json, k: Json)
    ensures Tally.WeightOf(Keyed(es, keyOf, Ms), k) == MsOfKey(es, keyOf, k)
  {
    if es != [] {
      var p := es[..|es| - 1];
      var e := es[|es| - 1];
      KeyedMsOf(p, keyOf, k);
      var tail := if keyOf(e) != Null then [(keyOf(e), Ms(e))] else [];
      assert Keyed(es, keyOf, Ms) == Keyed(p, keyOf, Ms) + tail;
      WeightOfAppend(Keyed(p, keyOf, Ms), tail, k);
    }
  }

  lemma {:induction false} KeyedCountOf(es: seq<Json>, keyOf: Json -> Json, k: Json)
    ensures Tally.WeightOf(Keyed(es, keyOf, One), k) == CountOfKey(es, keyOf, k)
  {
    if es != [] {
      var p := es[..|es| - 1];
      var n := |es| - 1;
      var e := es[n];
      KeyedCountOf(p, keyOf, k);
      var tail := if keyOf(e) != Null then [(keyOf(e), 1)] else [];
      assert Keyed(es, keyOf, One) == Keyed(p, keyOf, One) + tail;
      WeightOfAppend(Keyed(p, keyOf, One), tail, k);
      KeyIndicesSnoc(es, keyOf, k);
    }
  }

  /** The indices of the records with key `k`. */
  function KeyIndices(es: seq<Json>, keyOf: Json -> Json, k: Json): set<int> {
    set i | 0 <= i < |es| && keyOf(es[i]) == k && k != Null
  }

  lemma KeyIndicesSnoc(es: seq<Json>, keyOf: Json -> Json, k: Json)
    requires es != []
    ensures |KeyIndices(es, keyOf, k)|
         == |KeyIndices(es[..|es| - 1], keyOf, k)| + (if keyOf(es[|es| - 1]) == k && k != Null then 1 else 0)
  {
    var n := |es| - 1;
    var p := es[..n];
    var a := KeyIndices(p, keyOf, k);
    var b := KeyIndices(es, keyOf, k);
    forall i | 0 <= i < n
      ensures i in b <==> i in a
    {
      assert p[i] == es[i];
    }
    if keyOf(es[n]) == k && k != Null {
      assert b == a + {n};
    } else {
      assert b == a;
    }
  }

  lemma {:induction false} WeightOfAppend(a: seq<(Json, int)>, b: seq<(Json, int)>, k: Json)
    requires |b| <= 1
    ensures Tally.WeightOf(a + b, k) == Tally.WeightOf(a, k) + (if b != [] && b[0].0 == k then b[0].1 else 0)
  {
    if b != [] {
      assert (a + b)[..|a + b| - 1] == a;
    } else {
      assert a + b == a;
    }
  }

  /** After the loop, counter[k] is the number of records with key k, and time[k] sums their msPlayed. */
  lemma CounterValues(es: seq<Json>, keyOf: Json -> Json, k: Json)
    ensures Tally.Get(StreamsBy(es, keyOf), k) == CountOfKey(es, keyOf, k)
    ensures Tally.Get(TimeBy(es, keyOf), k) == MsOfKey(es, keyOf, k)
  {
    Tally.FoldGet(Keyed(es, keyOf, One), k);
    Tally.FoldGet(Keyed(es, keyOf, Ms), k);
    KeyedMsOf(es, keyOf, k);
    KeyedCountOf(es, keyOf, k);
  }

  /** The stream and time counters list the same keys in the same first-seen order. */
  lemma {:induction false} SameKeyOrder(es: seq<Json>, keyOf: Json -> Json)
    ensures KeysOf(StreamsBy(es, keyOf)) == KeysOf(TimeBy(es, keyOf))
  {
    Tally.FoldKeys(Keyed(es, keyOf, One));
    Tally.FoldKeys(Keyed(es, keyOf, Ms));
    KeyedPairKeys(es, keyOf);
  }

  lemma {:induction false} KeyedPairKeys(es: seq<Json>, keyOf: Json -> Json)
    ensures Tally.PairKeys(Keyed(es, keyOf, One)) == Tally.PairKeys(Keyed(es, keyOf, Ms))
  {
    if es != [] {
      KeyedPairKeys(es[..|es| - 1], keyOf);
    }
  }

  /** Totals over a batch split in two add up: a missing value contributes its default and nothing else. */
  lemma {:induction false} TotalAppend(a: seq<Json>, b: seq<Json>, weight: Json -> int)
    ensures Total(a + b, weight) == Total(a, weight) + Total(b, weight)
  {
    if b != [] {
      TotalAppend(a, b[..|b| - 1], weight);
      assert (a + b)[..|a + b| - 1] == a + b[..|b| - 1];
    } else {
      assert a + b == a;
    }
  }

  lemma {:induction false} KeyedTotal(es: seq<Json>, keyOf: Json -> Json, weight: Json -> int)
    ensures Tally.TotalWeight(Keyed(es, keyOf, weight)) == NamedTotal(es, keyOf, weight)
  {
    if es != [] {
      var p := es[..|es| - 1];
      var e := es[|es| - 1];
      KeyedTotal(p, keyOf, weight);
      var tail := if keyOf(e) != Null then [(keyOf(e), weight(e))] else [];
      assert Keyed(es, keyOf, weight) == Keyed(p, keyOf, weight) + tail;
      TotalWeightAppend(Keyed(p, keyOf, weight), tail);
    }
  }

  /** Summed over all keys, the per-key times are the msPlayed of the records with a truthy key. */
  lemma TimeSum(es: seq<Json>, keyOf: Json -> Json)
    ensures Tally.SumValues(TimeBy(es, keyOf)) == NamedTotal(es, keyOf, Ms)
  {
    Tally.FoldSum(Keyed(es, keyOf, Ms));
    KeyedTotal(es, keyOf, Ms);
  }

  /** When every record has a truthy key, the per-key times account for all of the listening time. */
  lemma {:induction false} AllNamedTotal(es: seq<Json>, keyOf: Json -> Json, weight: Json -> int)
    requires forall i :: 0 <= i < |es| ==> keyOf(es[i]) != Null
    ensures NamedTotal(es, keyOf, weight) == Total(es, weight)
  {
    if es != [] {
      AllNamedTotal(es[..|es| - 1], keyOf, weight);
    }
  }

  // ------------------------------------------------------------ playlists

  /** A follower count `sum` and `sorted` accept: absent, an integer or a boolean. */
  predicate FollowerField(p: Json) {
    p.Obj? &&
    match Lookup(p.fields, "numberOfFollowers")
    case None => true
    case Some(v) => v.Int? || v.Bool?
  }

  /**
   * What the diagnostic report needs of a playlist: a dict with a usable
   * follower count, items that `len` accepts, and a description that is
   * absent, falsy or a string.
   */
  predicate PlaylistRecord(p: Json) {
    && FollowerField(p)
    && (match Lookup(p.fields, "items")
        case None => true
        case Some(v) => Len(v).Some?)
    && TextField(p.fields, "description")
  }

  /** A JSON number as `sum` and `sorted` use it: an integer, or a boolean as 0 or 1. */
  function Number(v: Json): int {
    match v
    case Int(i) => i
    case Bool(b) => if b then 1 else 0
    case _ => 0
  }

  /** `playlist.get("numberOfFollowers", 0)` as a number. */
  function Followers(p: Json): int {
    if p.Obj? then Number(GetOr(p.fields, "numberOfFollowers", Int(0))) else 0
  }

  /** `len(playlist.get("items", []))`. */
  function ItemCount(p: Json): nat {
    if p.Obj? then
      match Lookup(p.fields, "items")
      case Some(v) => (match Len(v) case Some(n) => n case None => 0)
      case None => 0
    else 0
  }

  /** A playlist without a follower count adds nothing to the total. */
  lemma {:induction false} MissingFollowersCountZero(ps: seq<Json>, p: Json)
    requires p.Obj? && !HasKey(p.fields, "numberOfFollowers")
    ensures Total(ps + [p], Followers) == Total(ps, Followers)
  {
    assert (ps + [p])[..|ps|] == ps;
    assert Lookup(p.fields, "numberOfFollowers").None?;
  }

  /** A record without msPlayed adds nothing to the total time. */
  lemma {:induction false} MissingMsCountsZero(es: seq<Json>, e: Json)
    requires e.Obj? && !HasKey(e.fields, "msPlayed")
    ensures Total(es + [e], Ms) == Total(es, Ms)
  {
    assert (es + [e])[..|es|] == es;
    assert Lookup(e.fields, "msPlayed").None?;
  }
}
