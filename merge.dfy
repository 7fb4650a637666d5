/**
 * The Spotify data merger: it concatenates the streaming-history and playlist
 * files, keeps a reduced view of the account files, and cleans the merged play
 * records. The merged document lives in a `Merger` object whose fields the
 * merge steps update in place.
 */
module Merge {
  import opened JsonValue
  import opened Selection

  // ---------------------------------------------------------------- streaming history and playlists

  /** The records a sequence of streaming-history files contributes: the items of every file that holds a list. */
  function ListedRecords(files: seq<Loaded>): seq<Json> {
    if files == [] then []
    else
      var f := files[|files| - 1];
      ListedRecords(files[..|files| - 1]) + (if f.Parsed? && f.data.Arr? then f.data.items else [])
  }

  /** How many of the files hold a list. */
  function ListFiles(files: seq<Loaded>): nat {
    if files == [] then 0
    else
      var f := files[|files| - 1];
      ListFiles(files[..|files| - 1]) + (if f.Parsed? && f.data.Arr? then 1 else 0)
  }

  /** What `extend(data["playlists"])` adds for one file; `None` when the file is skipped or `extend` raises. */
  function PlaylistsOf(f: Loaded): (r: Option<seq<Json>>)
    ensures r.Some? ==> f.Parsed? && f.data.Obj? && HasKey(f.data.fields, "playlists")
    ensures f.Parsed? && f.data.Obj? && HasKey(f.data.fields, "playlists") && GetOr(f.data.fields, "playlists", Null).Arr?
            ==> r == Some(GetOr(f.data.fields, "playlists", Null).items)
  {
    if f.Parsed? && f.data.Obj? && HasKey(f.data.fields, "playlists") then
      Iter(GetOr(f.data.fields, "playlists", Null))
    else None
  }

  function ListedPlaylists(files: seq<Loaded>): seq<Json> {
    if files == [] then []
    else
      var p := PlaylistsOf(files[|files| - 1]);
      ListedPlaylists(files[..|files| - 1]) + (if p.Some? then p.value else [])
  }

  function PlaylistFiles(files: seq<Loaded>): nat {
    if files == [] then 0
    else PlaylistFiles(files[..|files| - 1]) + (if PlaylistsOf(files[|files| - 1]).Some? then 1 else 0)
  }

  /** One more playlist file adds its playlists, if it has any, and counts once. */
  lemma PlaylistsSnoc(files: seq<Loaded>, i: nat)
    requires i < |files|
    ensures ListedPlaylists(files[..i + 1]) == ListedPlaylists(files[..i]) + (if PlaylistsOf(files[i]).Some? then PlaylistsOf(files[i]).value else [])
    ensures PlaylistFiles(files[..i + 1]) == PlaylistFiles(files[..i]) + (if PlaylistsOf(files[i]).Some? then 1 else 0)
  {
    assert files[..i + 1][..i] == files[..i];
  }

  /** Merging a batch of files in two parts gives the two parts' records in order. */
  lemma {:induction false} ListedRecordsAppend(a: seq<Loaded>, b: seq<Loaded>)
    ensures ListedRecords(a + b) == ListedRecords(a) + ListedRecords(b)
    ensures ListFiles(a + b) == ListFiles(a) + ListFiles(b)
  {
    if b != [] {
      var init, f := b[..|b| - 1], b[|b| - 1];
      var last := if f.Parsed? && f.data.Arr? then f.data.items else [];
      ListedRecordsAppend(a, init);
      assert (a + b)[..|a + b| - 1] == a + init && (a + b)[|a + b| - 1] == f;
      assert ListedRecords(a + b) == ListedRecords(a + init) + last;
      assert ListedRecords(b) == ListedRecords(init) + last;
      ConcatAssoc(ListedRecords(a), ListedRecords(init), last);
    } else {
      assert a + b == a;
    }
  }

  /** Only files holding a list are counted, so the count never exceeds the number of files. */
  lemma {:induction false} ListFilesBound(files: seq<Loaded>)
    ensures ListFiles(files) <= |files|
    ensures ListFiles(files) == |files| ==> forall i :: 0 <= i < |files| ==> files[i].Parsed? && files[i].data.Arr?
  {
    if files != [] {
      ListFilesBound(files[..|files| - 1]);
      var p := files[..|files| - 1];
      assert forall i :: 0 <= i < |p| ==> files[i] == p[i];
    }
  }

  lemma {:induction false} ListedPlaylistsAppend(a: seq<Loaded>, b: seq<Loaded>)
    ensures ListedPlaylists(a + b) == ListedPlaylists(a) + ListedPlaylists(b)
    ensures PlaylistFiles(a + b) == PlaylistFiles(a) + PlaylistFiles(b)
  {
    if b != [] {
      var init, f := b[..|b| - 1], b[|b| - 1];
      var p := PlaylistsOf(f);
      var last := if p.Some? then p.value else [];
      ListedPlaylistsAppend(a, init);
      assert (a + b)[..|a + b| - 1] == a + init && (a + b)[|a + b| - 1] == f;
      assert ListedPlaylists(a + b) == ListedPlaylists(a + init) + last;
      assert ListedPlaylists(b) == ListedPlaylists(init) + last;
      ConcatAssoc(ListedPlaylists(a), ListedPlaylists(init), last);
    } else {
      assert a + b == a;
    }
  }

  // ---------------------------------------------------------------- user data

  const UserDataFiles: seq<string> := ["Identity.json", "Userdata.json", "YourLibrary.json"]

  /** `filename.replace(".json", "")` for the three account files. */
  function StoredName(filename: string): (r: string)
    requires filename in UserDataFiles
    ensures r + ".json" == filename
  {
    filename[..|filename| - 5]
  }

  /** The three named values of a dict, each `data.get(key)` (None when absent). */
  function Pick(fs: seq<(string, Json)>, keys: seq<string>): (r: seq<(string, Json)>)
    ensures KeysOf(r) == keys
    ensures forall i :: 0 <= i < |keys| ==> r[i].1 == GetOr(fs, keys[i], Null)
  {
    seq(|keys|, i requires 0 <= i < |keys| => (keys[i], GetOr(fs, keys[i], Null)))
  }

  /** `len(data.get(key, []))`; `None` for the TypeError of a value without a length. */
  function CountOf(fs: seq<(string, Json)>, key: string): (r: Option<nat>)
    ensures !HasKey(fs, key) ==> r == Some(0)
    ensures r.Some? <==> (!HasKey(fs, key) || Len(GetOr(fs, key, Null)).Some?)
  {
    Len(GetOr(fs, key, Arr([])))
  }

  /**
   * The reduced view stored for an account file; `None` when `data.get` or `len`
   * raises (a file that is not a dict, a library entry without a length).
   */
  function SafeView(filename: string, data: Json): (r: Option<Json>)
    requires filename in UserDataFiles
    ensures filename != "YourLibrary.json" ==> (r.Some? <==> data.Obj?)
    ensures filename == "Identity.json" && r.Some? ==>
      r.value.Obj? && KeysOf(r.value.fields) == ["country", "birthdate", "gender"]
      && forall i :: 0 <= i < 3 ==> r.value.fields[i].1 == GetOr(data.fields, r.value.fields[i].0, Null)
    ensures filename == "Userdata.json" && r.Some? ==>
      r.value.Obj? && KeysOf(r.value.fields) == ["username", "email", "created"]
      && forall i :: 0 <= i < 3 ==> r.value.fields[i].1 == GetOr(data.fields, r.value.fields[i].0, Null)
    ensures filename == "YourLibrary.json" ==>
      (r.Some? <==> data.Obj? && CountOf(data.fields, "tracks").Some? && CountOf(data.fields, "albums").Some?
                                && CountOf(data.fields, "artists").Some?)
    ensures filename == "YourLibrary.json" && r.Some? ==>
      r.value == Obj([("tracks_count", Int(CountOf(data.fields, "tracks").value)),
                      ("albums_count", Int(CountOf(data.fields, "albums").value)),
                      ("artists_count", Int(CountOf(data.fields, "artists").value))])
  {
    if !data.Obj? then None
    else if filename == "Identity.json" then Some(Obj(Pick(data.fields, ["country", "birthdate", "gender"])))
    else if filename == "Userdata.json" then Some(Obj(Pick(data.fields, ["username", "email", "created"])))
    else
      var t := CountOf(data.fields, "tracks");
      var a := CountOf(data.fields, "albums");
      var s := CountOf(data.fields, "artists");
      if t.Some? && a.Some? && s.Some? then
        Some(Obj([("tracks_count", Int(t.value)), ("albums_count", Int(a.value)), ("artists_count", Int(s.value))]))
      else None
  }

  /** The view an account file contributes: `None` when the file is missing, unreadable, or its view raises. */
  function View(filename: string, f: Option<Loaded>): (r: Option<Json>)
    requires filename in UserDataFiles
    ensures r.Some? <==> f.Some? && f.value.Parsed? && SafeView(filename, f.value.data).Some?
  {
    if f.Some? && f.value.Parsed? then SafeView(filename, f.value.data) else None
  }

  /** `d[key] = view` when there is a view; the dict is left alone otherwise. */
  function Stored(fs: seq<(string, Json)>, key: string, view: Option<Json>): Option<Json> {
    if view.Some? then view else Lookup(fs, key)
  }

  // ---------------------------------------------------------------- cleaning

  predicate Present(fs: seq<(string, Json)>, key: string) {
    Truthy(GetOr(fs, key, Null))
  }

  /** The record passes the required-field test: truthy trackName, artistName, endTime and msPlayed. */
  predicate HasRequired(e: Json) {
    && e.Obj?
    && Present(e.fields, "trackName") && Present(e.fields, "artistName")
    && Present(e.fields, "endTime") && Present(e.fields, "msPlayed")
  }

  /** `int(entry["msPlayed"])` for a record that passes the field test; `None` when it is not tried or raises. */
  function Converted(e: Json): (r: Option<int>)
    ensures r.Some? ==> HasRequired(e)
    ensures HasRequired(e) && GetOr(e.fields, "msPlayed", Null).Int? ==> r == Some(GetOr(e.fields, "msPlayed", Null).i)
  {
    if HasRequired(e) then IntOf(GetOr(e.fields, "msPlayed", Null)) else None
  }

  /** The record after `entry["msPlayed"] = int(...)`, which happens whenever the conversion succeeds. */
  function Normalised(e: Json): (r: Json)
    ensures e.Obj? <==> r.Obj?
    ensures Converted(e).None? ==> r == e
  {
    match Converted(e)
    case Some(n) => Obj(SetField(e.fields, "msPlayed", Int(n)))
    case None => e
  }

  /**
   * Rewriting msPlayed keeps the record's keys in order and every other field,
   * and stores the converted integer.
   */
  lemma NormalisedFields(e: Json)
    requires e.Obj?
    ensures KeysOf(Normalised(e).fields) == KeysOf(e.fields)
    ensures forall k :: k != "msPlayed" ==> Lookup(Normalised(e).fields, k) == Lookup(e.fields, k)
    ensures Converted(e).Some? ==> Lookup(Normalised(e).fields, "msPlayed") == Some(Int(Converted(e).value))
  {
    if Converted(e).Some? {
      SetFieldKeys(e.fields, "msPlayed", Int(Converted(e).value));
    }
  }

  /** The record is kept: it passes the field test and its play time converts to a positive integer. */
  predicate Kept(e: Json) {
    Converted(e).Some? && Converted(e).value > 0
  }

  /** The cleaned list: the normalised kept records, in order. */
  function Cleaned(es: seq<Json>): (r: seq<Json>)
    ensures |r| <= |es|
  {
    Sift(es, Kept, Normalised)
  }

  /** The index of the first record that is not a dict, where `entry.get` raises AttributeError. */
  function FirstNonDict(es: seq<Json>): (c: nat)
    requires !AllDicts(es)
    ensures c < |es| && !es[c].Obj? && AllDicts(es[..c])
  {
    if !es[0].Obj? then 0
    else
      var c := FirstNonDict(es[1..]);
      DictsCons(es[0], es[1..][..c]);
      assert es[..c + 1] == [es[0]] + es[1..][..c];
      c + 1
  }

  lemma DictsCons(e: Json, es: seq<Json>)
    requires e.Obj? && AllDicts(es)
    ensures AllDicts([e] + es)
  {
    assert forall i :: 0 < i <= |es| ==> ([e] + es)[i] == es[i - 1];
  }

  /** The first record that is not a dict is the one found after a run of dicts. */
  lemma {:induction false} FirstNonDictAt(es: seq<Json>, i: nat)
    requires i < |es| && AllDicts(es[..i]) && !es[i].Obj?
    ensures !AllDicts(es) && FirstNonDict(es) == i
  {
    if i > 0 {
      assert es[..i][0] == es[0];
      assert es[1..][..i - 1] == es[..i][1..];
      FirstNonDictAt(es[1..], i - 1);
    }
  }

  /** A record as the cleaning leaves it: the four required fields truthy, msPlayed an integer above 0. */
  predicate CleanRecord(r: Json) {
    && r.Obj?
    && Present(r.fields, "trackName") && Present(r.fields, "artistName") && Present(r.fields, "endTime")
    && match Lookup(r.fields, "msPlayed")
       case Some(Int(n)) => n > 0
       case _ => false
  }

  lemma NormalisedClean(e: Json)
    requires Kept(e)
    ensures CleanRecord(Normalised(e))
  {
    var r := Normalised(e);
    NormalisedFields(e);
    assert GetOr(r.fields, "trackName", Null) == GetOr(e.fields, "trackName", Null);
    assert GetOr(r.fields, "artistName", Null) == GetOr(e.fields, "artistName", Null);
    assert GetOr(r.fields, "endTime", Null) == GetOr(e.fields, "endTime", Null);
  }

  /** Every record the cleaning keeps has the four required fields truthy and an integer msPlayed above 0. */
  lemma CleanedRecords(es: seq<Json>)
    ensures forall j :: 0 <= j < |Cleaned(es)| ==> CleanRecord(Cleaned(es)[j])
  {
    SiftIsSelection(es, Kept, Normalised);
    forall j | 0 <= j < |Cleaned(es)|
      ensures CleanRecord(Cleaned(es)[j])
    {
      var i := Positions(es, Kept)[j];
      assert i in Positions(es, Kept);
      NormalisedClean(es[i]);
    }
  }

  /**
   * The cleaned list is an order-preserving selection of the input: the kept
   * positions increase; a position is kept exactly when its record passes the
   * field test and converts to a positive integer (a record whose conversion
   * raises is dropped, and the others are still looked at); the j-th cleaned
   * record is the rewritten record at the j-th kept position.
   */
  lemma CleanedIsSelection(es: seq<Json>)
    ensures |Positions(es, Kept)| == |Cleaned(es)|
    ensures Increasing(Positions(es, Kept))
    ensures forall i :: 0 <= i < |es| ==> (i in Positions(es, Kept) <==> Kept(es[i]))
    ensures forall j :: 0 <= j < |Cleaned(es)| ==> Cleaned(es)[j] == Normalised(es[Positions(es, Kept)[j]])
  {
    SiftIsSelection(es, Kept, Normalised);
  }

  /** The state of the cleaning loop after the records `es[..i]`, all of them dicts. */
  ghost predicate CleanedUpTo(es: seq<Json>, i: nat, history: seq<Json>, cleaned: seq<Json>) {
    && i <= |es|
    && AllDicts(es[..i])
    && history == Rewritten(es, i, Normalised)
    && cleaned == Cleaned(es[..i])
  }

  /** Before the loop, nothing has been rewritten or kept. */
  lemma CleanedStart(es: seq<Json>)
    ensures CleanedUpTo(es, 0, es, [])
  {
    assert es[..0] == [];
  }

  /** The record the loop reads next has not been touched yet. */
  lemma CleanedAt(es: seq<Json>, i: nat, history: seq<Json>, cleaned: seq<Json>)
    requires CleanedUpTo(es, i, history, cleaned) && i < |es|
    ensures history[i] == es[i]
  {
    RewrittenAt(es, i, Normalised);
  }

  /**
   * One step of the cleaning loop over a dict record: when the conversion
   * succeeds the record is rewritten in place and kept iff its play time is
   * positive; otherwise nothing changes.
   */
  lemma CleanAdvance(es: seq<Json>, i: nat, history: seq<Json>, cleaned: seq<Json>,
                     c: Option<int>, r: Json, history': seq<Json>, cleaned': seq<Json>)
    requires CleanedUpTo(es, i, history, cleaned) && i < |es| && es[i].Obj?
    requires c == Converted(es[i]) && r == Normalised(es[i])
    requires history' == if c.Some? then history[i := r] else history
    requires cleaned' == if c.Some? && c.value > 0 then cleaned + [r] else cleaned
    ensures CleanedUpTo(es, i + 1, history', cleaned')
  {
    DictsSnoc(es, i);
    KeptSnoc(es, i);
    if Converted(es[i]).None? {
      RewriteFixed(es, i, Normalised);
    }
  }

  lemma DictsSnoc(es: seq<Json>, i: nat)
    requires i < |es| && AllDicts(es[..i]) && es[i].Obj?
    ensures AllDicts(es[..i + 1])
  {
    assert forall j :: 0 <= j < i ==> es[..i + 1][j] == es[..i][j];
  }

  /** The cleaned list grows by the rewritten record exactly when its conversion gives a positive integer. */
  lemma KeptSnoc(es: seq<Json>, i: nat)
    requires i < |es|
    ensures Converted(es[i]).Some? ==>
      Cleaned(es[..i + 1]) == if Converted(es[i]).value > 0 then Cleaned(es[..i]) + [Normalised(es[i])] else Cleaned(es[..i])
    ensures Converted(es[i]).None? ==> Cleaned(es[..i + 1]) == Cleaned(es[..i])
  {
    SiftSnoc(es, i, Kept, Normalised);
    assert Cleaned(es[..i]) + [] == Cleaned(es[..i]);
  }

  // ---------------------------------------------------------------- the merger

  class Merger {
    var streamingHistory: seq<Json>
    var playlists: seq<Json>
    var userData: seq<(string, Json)>
    var filesProcessed: nat
    var totalStreams: nat

    constructor ()
      ensures streamingHistory == [] && playlists == [] && userData == []
      ensures filesProcessed == 0 && totalStreams == 0
    {
      streamingHistory, playlists, userData := [], [], [];
      filesProcessed, totalStreams := 0, 0;
    }

    /** One streaming-history file: a list is appended and counted; anything else changes nothing. */
    method MergeStreamingFile(f: Loaded)
      modifies this
      ensures f.Parsed? && f.data.Arr? ==>
        streamingHistory == old(streamingHistory) + f.data.items && filesProcessed == old(filesProcessed) + 1
      ensures !(f.Parsed? && f.data.Arr?) ==>
        streamingHistory == old(streamingHistory) && filesProcessed == old(filesProcessed)
      ensures playlists == old(playlists) && userData == old(userData) && totalStreams == old(totalStreams)
    {
      if f.Parsed? && f.data.Arr? {
        streamingHistory := streamingHistory + f.data.items;
        filesProcessed := filesProcessed + 1;
      }
    }

    method MergeStreamingHistory(files: seq<Loaded>)
      modifies this
      ensures streamingHistory == old(streamingHistory) + ListedRecords(files)
      ensures filesProcessed == old(filesProcessed) + ListFiles(files)
      ensures playlists == old(playlists) && userData == old(userData) && totalStreams == old(totalStreams)
    {
      var i := 0;
      while i < |files|
        invariant 0 <= i <= |files|
        invariant streamingHistory == old(streamingHistory) + ListedRecords(files[..i])
        invariant filesProcessed == old(filesProcessed) + ListFiles(files[..i])
        invariant playlists == old(playlists) && userData == old(userData) && totalStreams == old(totalStreams)
      {
        MergeStreamingFile(files[i]);
        assert files[..i + 1][..i] == files[..i];
        i := i + 1;
      }
      assert files[..i] == files;
    }

    /** One playlist file: a dict with a "playlists" key has that value appended and is counted. */
    method MergePlaylistsFile(f: Loaded)
      modifies this
      ensures PlaylistsOf(f).Some? ==>
        playlists == old(playlists) + PlaylistsOf(f).value && filesProcessed == old(filesProcessed) + 1
      ensures PlaylistsOf(f).None? ==> playlists == old(playlists) && filesProcessed == old(filesProcessed)
      ensures streamingHistory == old(streamingHistory) && userData == old(userData) && totalStreams == old(totalStreams)
    {
      if f.Parsed? && f.data.Obj? && HasKey(f.data.fields, "playlists") {
        var added := Iter(GetOr(f.data.fields, "playlists", Null));
        if added.Some? {
          playlists := playlists + added.value;
          filesProcessed := filesProcessed + 1;
        }
      }
    }

    method MergePlaylists(files: seq<Loaded>)
      modifies this
      ensures playlists == old(playlists) + ListedPlaylists(files)
      ensures filesProcessed == old(filesProcessed) + PlaylistFiles(files)
      ensures streamingHistory == old(streamingHistory) && userData == old(userData) && totalStreams == old(totalStreams)
    {
      var i := 0;
      while i < |files|
        invariant 0 <= i <= |files|
        invariant playlists == old(playlists) + ListedPlaylists(files[..i])
        invariant filesProcessed == old(filesProcessed) + PlaylistFiles(files[..i])
        invariant streamingHistory == old(streamingHistory) && userData == old(userData) && totalStreams == old(totalStreams)
      {
        PlaylistsSnoc(files, i);
        MergePlaylistsFile(files[i]);
        i := i + 1;
      }
      assert files[..i] == files;
    }

    /** One account file (`None` when it does not exist): its reduced view is stored under its stem and counted. */
    method MergeUserFile(filename: string, f: Option<Loaded>)
      requires filename in UserDataFiles
      modifies this`userData, this`filesProcessed
      ensures View(filename, f).Some? ==>
        userData == SetField(old(userData), StoredName(filename), View(filename, f).value)
        && filesProcessed == old(filesProcessed) + 1
      ensures View(filename, f).None? ==> userData == old(userData) && filesProcessed == old(filesProcessed)
      ensures Lookup(userData, StoredName(filename)) == Stored(old(userData), StoredName(filename), View(filename, f))
      ensures forall k :: k != StoredName(filename) ==> Lookup(userData, k) == Lookup(old(userData), k)
      ensures streamingHistory == old(streamingHistory) && playlists == old(playlists) && totalStreams == old(totalStreams)
    {
      if f.Some? && f.value.Parsed? {
        var safe := SafeView(filename, f.value.data);
        if safe.Some? {
          userData := SetField(userData, StoredName(filename), safe.value);
          filesProcessed := filesProcessed + 1;
        }
      }
    }

    /**
     * The three account files in turn: each stem holds its file's view, or what
     * it held before when there is none; every other key is untouched; each view
     * counts as one processed file.
     */
    method MergeUserData(identity: Option<Loaded>, userdata: Option<Loaded>, library: Option<Loaded>)
      modifies this`userData, this`filesProcessed
      ensures Lookup(userData, "Identity") == Stored(old(userData), "Identity", View("Identity.json", identity))
      ensures Lookup(userData, "Userdata") == Stored(old(userData), "Userdata", View("Userdata.json", userdata))
      ensures Lookup(userData, "YourLibrary") == Stored(old(userData), "YourLibrary", View("YourLibrary.json", library))
      ensures forall k :: k !in ["Identity", "Userdata", "YourLibrary"] ==> Lookup(userData, k) == Lookup(old(userData), k)
      ensures filesProcessed == old(filesProcessed) + (if View("Identity.json", identity).Some? then 1 else 0)
        + (if View("Userdata.json", userdata).Some? then 1 else 0) + (if View("YourLibrary.json", library).Some? then 1 else 0)
      ensures streamingHistory == old(streamingHistory) && playlists == old(playlists) && totalStreams == old(totalStreams)
    {
      ghost var before := userData;
      assert StoredName("Identity.json") == "Identity";
      MergeUserFile("Identity.json", identity);
      ghost var first := userData;
      assert StoredName("Userdata.json") == "Userdata";
      MergeUserFile("Userdata.json", userdata);
      ghost var second := userData;
      assert StoredName("YourLibrary.json") == "YourLibrary";
      MergeUserFile("YourLibrary.json", library);
      assert Lookup(userData, "Identity") == Lookup(second, "Identity") == Lookup(first, "Identity");
      assert Lookup(userData, "Userdata") == Lookup(second, "Userdata");
      assert Lookup(second, "Userdata") == Stored(first, "Userdata", View("Userdata.json", userdata));
      assert Lookup(first, "Userdata") == Lookup(before, "Userdata");
      assert Lookup(second, "YourLibrary") == Lookup(first, "YourLibrary") == Lookup(before, "YourLibrary");
      forall k | k !in ["Identity", "Userdata", "YourLibrary"]
        ensures Lookup(userData, k) == Lookup(before, k)
      {
        assert k != "Identity" && k != "Userdata" && k != "YourLibrary";
        assert Lookup(userData, k) == Lookup(second, k) == Lookup(first, k);
      }
    }

    /**
     * Rewrites msPlayed in place on every record that passes the field test, then
     * keeps only the records with a positive play time. A record that is not a
     * dict raises AttributeError (`ok` is false): the records before it have
     * already been rewritten, and the list is not replaced.
     */
    method CleanStreamingData() returns (ok: bool)
      modifies this`streamingHistory, this`totalStreams
      ensures ok == AllDicts(old(streamingHistory))
      ensures ok ==> streamingHistory == Cleaned(old(streamingHistory)) && totalStreams == |streamingHistory|
      ensures !ok ==> streamingHistory == Rewritten(old(streamingHistory), FirstNonDict(old(streamingHistory)), Normalised)
                      && totalStreams == old(totalStreams)
      ensures playlists == old(playlists) && userData == old(userData) && filesProcessed == old(filesProcessed)
    {
      var original, history := streamingHistory, streamingHistory;
      var cleaned: seq<Json> := [];
      var i := 0;
      ok := true;
      CleanedStart(original);
      while i < |original|
        invariant CleanedUpTo(original, i, history, cleaned) && ok
        modifies {}
      {
        CleanedAt(original, i, history, cleaned);
        var entry := history[i];
        if !entry.Obj? {
          FirstNonDictAt(original, i);
          ok := false;
          break;
        }
        ghost var before, kept := history, cleaned;
        var converted := Converted(entry);
        var rewritten := Normalised(entry);
        if converted.Some? {
          history := history[i := rewritten];
          if converted.value > 0 {
            cleaned := cleaned + [rewritten];
          }
        }
        CleanAdvance(original, i, before, kept, converted, rewritten, history, cleaned);
        i := i + 1;
      }
      if !ok {
        streamingHistory := history;
        return;
      }
      assert original[..i] == original;
      streamingHistory := cleaned;
      totalStreams := |cleaned|;
    }
  }
}
