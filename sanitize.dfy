/**
 * The Spotify data sanitizer: it drops every dict key that names a sensitive
 * field, redacts sensitive patterns inside strings, skips whole files by name,
 * keeps per-run counters, and builds reduced copies of the streaming history
 * and of the playlists.
 */
module Sanitize {
  import opened JsonValue
  import opened Selection

  // ---------------------------------------------------------------- fields to remove

  const RemoveFields: seq<string> := [
    "ip_addr", "ipAddress", "ip_address", "ipAddrDecrypted",
    "email", "emailAddress", "email_address",
    "phone", "phoneNumber", "phone_number",
    "deviceId", "device_id", "deviceIdDecrypted",
    "macAddress", "mac_address",
    "creditCard", "credit_card", "cardNumber",
    "password", "token", "accessToken", "refreshToken",
    "sessionId", "session_id",
    "userId", "user_id", "username",
    "address", "street", "city", "zip", "postalCode",
    "ssn", "socialSecurity", "passport",
    "location", "latitude", "longitude", "gps",
    "timezone", "timeZone",
    "platform", "os", "operatingSystem",
    "browser", "userAgent",
    "connection", "network", "wifi",
    "bluetooth", "bluetoothAddress"
  ]

  /** Some entry of the removal list, lowercased, occurs in the lowercased key. */
  predicate Sensitive(key: string) {
    exists i :: 0 <= i < |RemoveFields| && Contains(Lower(key), Lower(RemoveFields[i]))
  }

  predicate KeptField(p: (string, Json)) {
    !Sensitive(p.0)
  }

  // ---------------------------------------------------------------- redaction patterns

  /** The redaction patterns, in the order they are applied. */
  const PatternNames: seq<string> := [
    "ip_addresses", "email_addresses", "device_ids", "mac_addresses",
    "phone_numbers", "credit_cards", "spotify_uris"
  ]

  /**
   * The regular expressions seen from outside: how many matches `re.findall`
   * finds for a named pattern in a text, and the text `re.sub` makes of it with
   * that pattern's placeholder.
   */
  datatype Redactor = Redactor(matches: (string, string) -> nat, substitute: (string, string) -> string)

  /** The text and the redaction count after the first `k` patterns. */
  function RedactUpTo(re: Redactor, text: string, k: nat): (string, nat)
    requires k <= |PatternNames|
  {
    if k == 0 then (text, 0)
    else
      var (t, n) := RedactUpTo(re, text, k - 1);
      var m := re.matches(PatternNames[k - 1], t);
      if m > 0 then (re.substitute(PatternNames[k - 1], t), n + m) else (t, n)
  }

  function Redacted(re: Redactor, text: string): string {
    RedactUpTo(re, text, |PatternNames|).0
  }

  function RedactionCount(re: Redactor, text: string): nat {
    RedactUpTo(re, text, |PatternNames|).1
  }

  /**
   * For any regular-expression engine: no redaction is counted exactly when no
   * pattern matches the text as it stands when that pattern's turn comes, and
   * then the text is left as it was.
   */
  lemma {:induction false} NoMatchNoChange(re: Redactor, text: string, k: nat)
    requires k <= |PatternNames|
    ensures RedactUpTo(re, text, k).1 == 0 <==>
      forall j :: 0 <= j < k ==> re.matches(PatternNames[j], RedactUpTo(re, text, j).0) == 0
    ensures RedactUpTo(re, text, k).1 == 0 ==> RedactUpTo(re, text, k).0 == text
  {
    if k > 0 {
      NoMatchNoChange(re, text, k - 1);
    }
  }

  // ---------------------------------------------------------------- the recursive rewrite

  /** The sanitised copy of a JSON value. */
  function Sanitized(re: Redactor, j: Json): (r: Json)
    ensures j.Str? ==> r == Str(Redacted(re, j.s))
    ensures j.Arr? ==> r.Arr? && |r.items| == |j.items|
    ensures j.Obj? ==> r.Obj? && |r.fields| <= |j.fields|
    ensures !(j.Obj? || j.Arr? || j.Str?) ==> r == j
    decreases j, 1
  {
    match j
    case Obj(fs) => Obj(SanitizedFields(re, fs))
    case Arr(xs) => Arr(SanitizedItems(re, xs))
    case Str(s) => Str(Redacted(re, s))
    case _ => j
  }

  /** The fields a dict keeps, each value sanitised, in the original order. */
  function SanitizedFields(re: Redactor, fs: seq<(string, Json)>): (r: seq<(string, Json)>)
    ensures |r| <= |fs|
    decreases fs, 0
  {
    if fs == [] then []
    else
      var p := fs[|fs| - 1];
      assert p in fs && p.1 < p;
      SanitizedFields(re, fs[..|fs| - 1]) + (if Sensitive(p.0) then [] else [(p.0, Sanitized(re, p.1))])
  }

  function SanitizedItems(re: Redactor, xs: seq<Json>): (r: seq<Json>)
    ensures |r| == |xs|
    decreases xs, 0
  {
    if xs == [] then [] else SanitizedItems(re, xs[..|xs| - 1]) + [Sanitized(re, xs[|xs| - 1])]
  }

  /** The number of redactions sanitising the value makes (removed keys are never looked at). */
  function Redactions(re: Redactor, j: Json): nat
    decreases j, 1
  {
    match j
    case Obj(fs) => FieldRedactions(re, fs)
    case Arr(xs) => ItemRedactions(re, xs)
    case Str(s) => RedactionCount(re, s)
    case _ => 0
  }

  function FieldRedactions(re: Redactor, fs: seq<(string, Json)>): nat
    decreases fs, 0
  {
    if fs == [] then 0
    else
      var p := fs[|fs| - 1];
      assert p in fs && p.1 < p;
      FieldRedactions(re, fs[..|fs| - 1]) + (if Sensitive(p.0) then 0 else Redactions(re, p.1))
  }

  function ItemRedactions(re: Redactor, xs: seq<Json>): nat
    decreases xs, 0
  {
    if xs == [] then 0 else ItemRedactions(re, xs[..|xs| - 1]) + Redactions(re, xs[|xs| - 1])
  }

  /** No key anywhere in the value names a sensitive field. */
  ghost predicate NoSensitiveKeys(j: Json)
    decreases j
  {
    match j
    case Obj(fs) => forall i :: 0 <= i < |fs| ==> !Sensitive(fs[i].0) && (fs[i] in fs && fs[i].1 < fs[i] && NoSensitiveKeys(fs[i].1))
    case Arr(xs) => forall i :: 0 <= i < |xs| ==> NoSensitiveKeys(xs[i])
    case _ => true
  }

  /**
   * A dict keeps exactly its non-sensitive keys, in their original order, each
   * with its value sanitised: the kept positions increase, a position is kept
   * exactly when its key is not sensitive, and the j-th output field comes from
   * the j-th kept position.
   */
  lemma {:induction false} SanitizedDict(re: Redactor, fs: seq<(string, Json)>)
    ensures |SanitizedFields(re, fs)| == |Positions(fs, KeptField)|
    ensures Increasing(Positions(fs, KeptField))
    ensures forall i :: 0 <= i < |fs| ==> (i in Positions(fs, KeptField) <==> !Sensitive(fs[i].0))
    ensures forall j :: 0 <= j < |Positions(fs, KeptField)| ==>
      SanitizedFields(re, fs)[j] == (fs[Positions(fs, KeptField)[j]].0, Sanitized(re, fs[Positions(fs, KeptField)[j]].1))
  {
    SiftIsSelection(fs, KeptField, Id);
    if fs != [] {
      var p := fs[..|fs| - 1];
      SanitizedDict(re, p);
      var ip := Positions(p, KeptField);
      forall j | 0 <= j < |ip|
        ensures SanitizedFields(re, fs)[j] == (fs[ip[j]].0, Sanitized(re, fs[ip[j]].1))
      {
        assert p[ip[j]] == fs[ip[j]];
      }
    }
  }

  /** A list is sanitised element by element. */
  lemma {:induction false} SanitizedList(re: Redactor, xs: seq<Json>)
    ensures forall i :: 0 <= i < |xs| ==> SanitizedItems(re, xs)[i] == Sanitized(re, xs[i])
  {
    if xs != [] {
      SanitizedList(re, xs[..|xs| - 1]);
      assert forall i :: 0 <= i < |xs| - 1 ==> xs[..|xs| - 1][i] == xs[i];
    }
  }

  /** Nothing the sanitiser returns has a sensitive key, at any depth. */
  lemma {:induction false} SanitizedHasNoSensitiveKeys(re: Redactor, j: Json)
    ensures NoSensitiveKeys(Sanitized(re, j))
    decreases j
  {
    match j
    case Obj(fs) =>
      var r := SanitizedFields(re, fs);
      SanitizedDict(re, fs);
      var idx := Positions(fs, KeptField);
      forall k | 0 <= k < |r|
        ensures !Sensitive(r[k].0) && NoSensitiveKeys(r[k].1)
      {
        assert idx[k] in idx;
        assert fs[idx[k]] in fs && fs[idx[k]].1 < fs[idx[k]];
        SanitizedHasNoSensitiveKeys(re, fs[idx[k]].1);
      }
    case Arr(xs) =>
      SanitizedList(re, xs);
      forall i | 0 <= i < |xs|
        ensures NoSensitiveKeys(SanitizedItems(re, xs)[i])
      {
        SanitizedHasNoSensitiveKeys(re, xs[i]);
      }
    case _ =>
  }

  // ---------------------------------------------------------------- skipped files

  const SensitiveFiles: seq<string> := ["identity.json", "userdata.json", "payments.json", "follow.json", "inferences.json"]

  /** A technical log (any path mentioning "technical" or "log") or one of the sensitive account files. */
  predicate ShouldSkipFile(path: string) {
    Contains(Lower(path), "technical") || Contains(Lower(path), "log") || Lower(BaseName(path)) in SensitiveFiles
  }

  lemma {:induction false} BaseNameJoin(dir: string, name: string)
    requires '/' !in name
    ensures BaseName(dir + "/" + name) == name
  {
    if name != [] {
      var last := name[|name| - 1];
      assert (dir + "/" + name)[..|dir + "/" + name| - 1] == dir + "/" + name[..|name| - 1];
      BaseNameJoin(dir, name[..|name| - 1]);
      assert name == name[..|name| - 1] + [last];
    } else {
      assert dir + "/" + name == dir + "/";
    }
  }

  /** A sensitive account file is skipped wherever it lies, whatever the case of its name. */
  lemma SkipSensitiveName(dir: string, name: string)
    requires '/' !in name && Lower(name) in SensitiveFiles
    ensures ShouldSkipFile(dir + "/" + name)
  {
    BaseNameJoin(dir, name);
  }

  lemma LowerIdempotent(s: string)
    ensures Lower(Lower(s)) == Lower(s)
  {
  }

  /** Lowercasing works character by character, so it commutes with appending one. */
  lemma LowerSnoc(s: string, c: char)
    ensures Lower(s + [c]) == Lower(s) + [LowerChar(c)]
  {
  }

  lemma {:induction false} BaseNameLower(path: string)
    ensures BaseName(Lower(path)) == Lower(BaseName(path))
  {
    if path != [] {
      var p, c := path[..|path| - 1], path[|path| - 1];
      assert path == p + [c];
      LowerSnoc(p, c);
      var lp := Lower(path);
      assert lp[..|lp| - 1] == Lower(p) && lp[|lp| - 1] == LowerChar(c);
      assert LowerChar(c) == '/' <==> c == '/';
      BaseNameLower(p);
      if c != '/' {
        LowerSnoc(BaseName(p), c);
      }
    }
  }

  /** The decision depends only on the lowercased path. */
  lemma SkipIgnoresCase(path: string)
    ensures ShouldSkipFile(Lower(path)) == ShouldSkipFile(path)
  {
    LowerIdempotent(path);
    BaseNameLower(path);
    LowerIdempotent(BaseName(path));
  }

  // ---------------------------------------------------------------- safe streaming history

  /** The five fields a safe streaming record keeps, with the defaults `entry.get` supplies. */
  function SafeEntry(e: Json): (r: Json)
    ensures e.Obj? <==> r.Obj?
  {
    if e.Obj? then
      Obj([("trackName", GetOr(e.fields, "trackName", Str(""))),
           ("artistName", GetOr(e.fields, "artistName", Str(""))),
           ("albumName", GetOr(e.fields, "albumName", Str(""))),
           ("endTime", GetOr(e.fields, "endTime", Str(""))),
           ("msPlayed", GetOr(e.fields, "msPlayed", Int(0)))])
    else e
  }

  /** A safe record has exactly the five keys, in this order. */
  lemma SafeEntryKeys(e: Json)
    requires e.Obj?
    ensures KeysOf(SafeEntry(e).fields) == ["trackName", "artistName", "albumName", "endTime", "msPlayed"]
  {
    var fs := SafeEntry(e).fields;
    KeysOf5(fs[0], fs[1], fs[2], fs[3], fs[4]);
    assert fs == [fs[0], fs[1], fs[2], fs[3], fs[4]];
  }

  /** The projected record passes: truthy track, artist, end time and play time (the album may be empty). */
  predicate ValidSafe(s: Json) {
    && s.Obj? && |s.fields| == 5
    && Truthy(s.fields[0].1) && Truthy(s.fields[1].1) && Truthy(s.fields[3].1) && Truthy(s.fields[4].1)
  }

  predicate SafeKept(e: Json) {
    e.Obj? && ValidSafe(SafeEntry(e))
  }

  predicate IsDict(e: Json) {
    e.Obj?
  }

  /** The safe records one list-shaped file gives: its leading dicts are projected; the first non-dict raises and ends the file. */
  function SafeEntries(items: seq<Json>): seq<Json> {
    Sift(items[..LeadingRun(items, IsDict)], SafeKept, SafeEntry)
  }

  function SafeStreaming(files: seq<Loaded>): seq<Json> {
    if files == [] then []
    else
      var f := files[|files| - 1];
      SafeStreaming(files[..|files| - 1]) + (if f.Parsed? && f.data.Arr? then SafeEntries(f.data.items) else [])
  }

  /**
   * Every safe record has exactly the five keys, in order, with a truthy track,
   * artist, end time and play time; each is the projection of an input record.
   */
  lemma SafeEntriesShape(items: seq<Json>)
    ensures |SafeEntries(items)| <= |items|
    ensures forall j :: 0 <= j < |SafeEntries(items)| ==>
      var s := SafeEntries(items)[j];
      && s.Obj? && KeysOf(s.fields) == ["trackName", "artistName", "albumName", "endTime", "msPlayed"]
      && ValidSafe(s)
      && exists i :: 0 <= i < |items| && s == SafeEntry(items[i])
  {
    var n := LeadingRun(items, IsDict);
    var run := items[..n];
    SiftIsSelection(run, SafeKept, SafeEntry);
    forall j | 0 <= j < |SafeEntries(items)|
      ensures var s := SafeEntries(items)[j];
        && s.Obj? && KeysOf(s.fields) == ["trackName", "artistName", "albumName", "endTime", "msPlayed"]
        && ValidSafe(s)
        && exists i :: 0 <= i < |items| && s == SafeEntry(items[i])
    {
      var i := Positions(run, SafeKept)[j];
      assert i in Positions(run, SafeKept);
      assert run[i] == items[i] && SafeKept(items[i]);
      assert SafeEntries(items)[j] == SafeEntry(items[i]);
      SafeEntryKeys(items[i]);
    }
  }

  lemma {:induction false} SafeStreamingAppend(a: seq<Loaded>, b: seq<Loaded>)
    ensures SafeStreaming(a + b) == SafeStreaming(a) + SafeStreaming(b)
  {
    if b != [] {
      var init, f := b[..|b| - 1], b[|b| - 1];
      var last := if f.Parsed? && f.data.Arr? then SafeEntries(f.data.items) else [];
      SafeStreamingAppend(a, init);
      assert (a + b)[..|a + b| - 1] == a + init && (a + b)[|a + b| - 1] == f;
      assert SafeStreaming(a + b) == SafeStreaming(a + init) + last;
      assert SafeStreaming(b) == SafeStreaming(init) + last;
      ConcatAssoc(SafeStreaming(a), SafeStreaming(init), last);
    } else {
      assert a + b == a;
    }
  }

  // ---------------------------------------------------------------- safe playlists

  /** `item.get("track", {})` succeeds and gives a dict whose fields can be read. */
  predicate ItemOk(item: Json) {
    item.Obj? && GetOr(item.fields, "track", Obj([])).Obj?
  }

  /** The four fields of a safe playlist item; `None` when `item.get` or `.get` on the track raises. */
  function SafeItem(item: Json): (r: Option<Json>)
    ensures r.Some? <==> ItemOk(item)
  {
    if !item.Obj? then None
    else
      var track := GetOr(item.fields, "track", Obj([]));
      if !track.Obj? then None
      else
        Some(Obj([("trackName", GetOr(track.fields, "trackName", Str(""))),
                  ("artistName", GetOr(track.fields, "artistName", Str(""))),
                  ("albumName", GetOr(track.fields, "albumName", Str(""))),
                  ("addedAt", GetOr(item.fields, "addedAt", Str("")))]))
  }

  /** A safe item has exactly the four keys, in this order. */
  lemma SafeItemKeys(item: Json)
    requires ItemOk(item)
    ensures SafeItem(item).value.Obj?
    ensures KeysOf(SafeItem(item).value.fields) == ["trackName", "artistName", "albumName", "addedAt"]
  {
    var fs := SafeItem(item).value.fields;
    KeysOf4(fs[0], fs[1], fs[2], fs[3]);
    assert fs == [fs[0], fs[1], fs[2], fs[3]];
  }

  /** `[f(x) for x in xs]` where each `f(x)` may raise: `None` as soon as one of them does. */
  function CollectAll<T>(xs: seq<T>, f: T -> Option<Json>): (r: Option<seq<Json>>)
    ensures r.Some? ==> |r.value| == |xs| && forall i :: 0 <= i < |xs| ==> f(xs[i]) == Some(r.value[i])
    ensures r.Some? <==> forall i :: 0 <= i < |xs| ==> f(xs[i]).Some?
  {
    if xs == [] then Some([])
    else
      var p := xs[..|xs| - 1];
      var rest := CollectAll(p, f);
      assert forall i :: 0 <= i < |p| ==> p[i] == xs[i];
      var last := f(xs[|xs| - 1]);
      if rest.Some? && last.Some? then Some(rest.value + [last.value]) else None
  }

  /** The safe items of a playlist, one per source item; `None` as soon as one of them raises. */
  function SafeItems(items: seq<Json>): (r: Option<seq<Json>>)
    ensures r.Some? ==> |r.value| == |items| && forall i :: 0 <= i < |items| ==> SafeItem(items[i]) == Some(r.value[i])
    ensures r.Some? <==> forall i :: 0 <= i < |items| ==> ItemOk(items[i])
  {
    CollectAll(items, SafeItem)
  }

  /** Collecting one more item appends its safe copy; an item that raises makes the whole list raise. */
  lemma SafeItemsSnoc(items: seq<Json>, i: nat)
    requires i < |items|
    ensures SafeItems(items[..i]).Some? && SafeItem(items[i]).Some? ==>
      SafeItems(items[..i + 1]) == Some(SafeItems(items[..i]).value + [SafeItem(items[i]).value])
    ensures SafeItem(items[i]).None? ==> SafeItems(items).None?
  {
    assert items[..i + 1][..i] == items[..i];
  }

  /** A safe playlist; `None` when the playlist is not a dict or one of its items raises. */
  function SafePlaylist(p: Json): (r: Option<Json>)
  {
    if !p.Obj? then None
    else
      var head := [("name", GetOr(p.fields, "name", Str(""))),
                   ("description", GetOr(p.fields, "description", Str(""))),
                   ("numberOfFollowers", GetOr(p.fields, "numberOfFollowers", Int(0)))];
      if !HasKey(p.fields, "items") then Some(Obj(head + [("items", Arr([]))]))
      else
        match Iter(GetOr(p.fields, "items", Null))
        case None => None
        case Some(items) =>
          match SafeItems(items)
          case None => None
          case Some(safe) => Some(Obj(head + [("items", Arr(safe))]))
  }

  /**
   * A safe playlist has the four keys name, description, numberOfFollowers and
   * items, and as many items as the source playlist (none when it has no
   * "items" key).
   */
  lemma SafePlaylistShape(p: Json)
    requires SafePlaylist(p).Some?
    ensures var s := SafePlaylist(p).value;
      && s.Obj? && KeysOf(s.fields) == ["name", "description", "numberOfFollowers", "items"]
      && s.fields[3].1.Arr?
      && |s.fields[3].1.items| == (if HasKey(p.fields, "items") then |Iter(GetOr(p.fields, "items", Null)).value| else 0)
  {
  }

  predicate PlaylistOk(p: Json) {
    SafePlaylist(p).Some?
  }

  function PlaylistOrSelf(p: Json): Json {
    match SafePlaylist(p)
    case Some(s) => s
    case None => p
  }

  /** The playlists one file contributes, if it is a dict with a "playlists" key whose value can be iterated. */
  function PlaylistSource(f: Loaded): Option<seq<Json>> {
    if f.Parsed? && f.data.Obj? && HasKey(f.data.fields, "playlists") then Iter(GetOr(f.data.fields, "playlists", Null))
    else None
  }

  /** The safe playlists of one file: those before the first one that raises. */
  function SafePlaylistsOf(pls: seq<Json>): seq<Json> {
    Sift(pls[..LeadingRun(pls, PlaylistOk)], PlaylistOk, PlaylistOrSelf)
  }

  function SafePlaylists(files: seq<Loaded>): seq<Json> {
    if files == [] then []
    else
      var src := PlaylistSource(files[|files| - 1]);
      SafePlaylists(files[..|files| - 1]) + (if src.Some? then SafePlaylistsOf(src.value) else [])
  }

  /** Every playlist before the first failing one is kept, in order, as its safe copy. */
  lemma SafePlaylistsOfRun(pls: seq<Json>)
    ensures |SafePlaylistsOf(pls)| == LeadingRun(pls, PlaylistOk)
    ensures forall j :: 0 <= j < |SafePlaylistsOf(pls)| ==> Some(SafePlaylistsOf(pls)[j]) == SafePlaylist(pls[j])
  {
    var n := LeadingRun(pls, PlaylistOk);
    var run := pls[..n];
    SiftIsSelection(run, PlaylistOk, PlaylistOrSelf);
    assert forall i :: 0 <= i < n ==> i in Positions(run, PlaylistOk);
    AllPositions(run, PlaylistOk);
  }

  /** When every element passes, the kept positions are all of them. */
  lemma {:induction false} AllPositions<T>(es: seq<T>, keep: T -> bool)
    requires forall i :: 0 <= i < |es| ==> keep(es[i])
    ensures Positions(es, keep) == seq(|es|, i requires 0 <= i < |es| => i)
  {
    if es != [] {
      AllPositions(es[..|es| - 1], keep);
    }
  }

  // ---------------------------------------------------------------- the sanitizer

  class Sanitizer {
    const re: Redactor
    var filesProcessed: nat
    var filesSanitized: nat
    var totalRedactions: nat

    /** A file is counted as sanitised only after it was counted as processed. */
    predicate Valid()
      reads this
    {
      filesSanitized <= filesProcessed
    }

    constructor (re: Redactor)
      ensures this.re == re && Valid()
      ensures filesProcessed == 0 && filesSanitized == 0 && totalRedactions == 0
    {
      this.re := re;
      filesProcessed, filesSanitized, totalRedactions := 0, 0, 0;
    }

    /** Redacts every pattern in turn; a non-string is returned unchanged. The matches found are added to the total. */
    method SanitizeString(text: Json) returns (r: Json)
      modifies this`totalRedactions
      ensures !text.Str? ==> r == text && totalRedactions == old(totalRedactions)
      ensures text.Str? ==> r == Str(Redacted(re, text.s)) && totalRedactions == old(totalRedactions) + RedactionCount(re, text.s)
    {
      if !text.Str? {
        return text;
      }
      var sanitized := text.s;
      var redactions: nat := 0;
      var k := 0;
      while k < |PatternNames|
        invariant 0 <= k <= |PatternNames|
        invariant (sanitized, redactions) == RedactUpTo(re, text.s, k)
      {
        var m := re.matches(PatternNames[k], sanitized);
        if m > 0 {
          sanitized := re.substitute(PatternNames[k], sanitized);
          redactions := redactions + m;
        }
        k := k + 1;
      }
      if redactions > 0 {
        totalRedactions := totalRedactions + redactions;
      }
      return Str(sanitized);
    }

    method SanitizeObject(obj: Json) returns (r: Json)
      modifies this`totalRedactions
      ensures r == Sanitized(re, obj)
      ensures totalRedactions == old(totalRedactions) + Redactions(re, obj)
      decreases obj, 1
    {
      match obj
      case Obj(fs) =>
        var out := SanitizeFields(fs);
        r := Obj(out);
      case Arr(xs) =>
        var out := SanitizeItems(xs);
        r := Arr(out);
      case Str(_) =>
        r := SanitizeString(obj);
      case _ =>
        r := obj;
    }

    /** The dict case: sensitive keys are dropped, every other value is sanitised in place of the old one. */
    method SanitizeFields(fs: seq<(string, Json)>) returns (out: seq<(string, Json)>)
      modifies this`totalRedactions
      ensures out == SanitizedFields(re, fs)
      ensures totalRedactions == old(totalRedactions) + FieldRedactions(re, fs)
      decreases fs, 0
    {
      out := [];
      var i := 0;
      while i < |fs|
        invariant 0 <= i <= |fs|
        invariant out == SanitizedFields(re, fs[..i])
        invariant totalRedactions == old(totalRedactions) + FieldRedactions(re, fs[..i])
      {
        var (key, value) := fs[i];
        assert fs[..i + 1][..i] == fs[..i];
        assert fs[i] in fs && fs[i].1 < fs[i];
        if !Sensitive(key) {
          var v := SanitizeObject(value);
          out := out + [(key, v)];
        }
        i := i + 1;
      }
      assert fs[..i] == fs;
    }

    /** The list case: every item is sanitised, in order. */
    method SanitizeItems(xs: seq<Json>) returns (out: seq<Json>)
      modifies this`totalRedactions
      ensures out == SanitizedItems(re, xs)
      ensures totalRedactions == old(totalRedactions) + ItemRedactions(re, xs)
      decreases xs, 0
    {
      out := [];
      var i := 0;
      while i < |xs|
        invariant 0 <= i <= |xs|
        invariant out == SanitizedItems(re, xs[..i])
        invariant totalRedactions == old(totalRedactions) + ItemRedactions(re, xs[..i])
      {
        assert xs[..i + 1][..i] == xs[..i];
        var v := SanitizeObject(xs[i]);
        out := out + [v];
        i := i + 1;
      }
      assert xs[..i] == xs;
    }

    /**
     * One file (`Unreadable` when opening or parsing raises): it is counted as
     * processed before the skip test; a sanitised copy is returned unless it is
     * skipped, and it is counted as sanitised when the running redaction total
     * is above zero.
     */
    method SanitizeFile(path: string, f: Loaded) returns (out: Option<Json>)
      requires Valid()
      modifies this
      ensures Valid()
      ensures f.Unreadable? ==>
        out.None? && filesProcessed == old(filesProcessed) && filesSanitized == old(filesSanitized)
        && totalRedactions == old(totalRedactions)
      ensures f.Parsed? ==> filesProcessed == old(filesProcessed) + 1
      ensures f.Parsed? && ShouldSkipFile(path) ==>
        out.None? && filesSanitized == old(filesSanitized) && totalRedactions == old(totalRedactions)
      ensures f.Parsed? && !ShouldSkipFile(path) ==>
        && out == (if f.data.Null? then None else Some(Sanitized(re, f.data)))
        && totalRedactions == old(totalRedactions) + Redactions(re, f.data)
        && filesSanitized == old(filesSanitized) + (if totalRedactions > 0 then 1 else 0)
    {
      if f.Unreadable? {
        return None;
      }
      filesProcessed := filesProcessed + 1;
      if ShouldSkipFile(path) {
        return None;
      }
      var sanitized := SanitizeObject(f.data);
      if totalRedactions > 0 {
        filesSanitized := filesSanitized + 1;
      }
      if sanitized.Null? {
        return None;
      }
      return Some(sanitized);
    }

    /** Sanitises the files in turn; the outputs are what would be saved. */
    method SanitizeAllFiles(files: seq<(string, Loaded)>) returns (outs: seq<Option<Json>>)
      requires Valid()
      modifies this
      ensures Valid()
      ensures |outs| == |files|
      ensures forall i :: 0 <= i < |files| ==> outs[i] == FileOutput(re, files[i])
      ensures filesProcessed == old(filesProcessed) + ParsedCount(files)
      ensures totalRedactions == old(totalRedactions) + FilesRedactions(re, files)
      ensures filesSanitized == old(filesSanitized) + SanitizedCount(re, files, old(totalRedactions))
    {
      outs := [];
      var i := 0;
      while i < |files|
        invariant 0 <= i <= |files| && Valid()
        invariant |outs| == i
        invariant forall j :: 0 <= j < i ==> outs[j] == FileOutput(re, files[j])
        invariant filesProcessed == old(filesProcessed) + ParsedCount(files[..i])
        invariant totalRedactions == old(totalRedactions) + FilesRedactions(re, files[..i])
        invariant filesSanitized == old(filesSanitized) + SanitizedCount(re, files[..i], old(totalRedactions))
      {
        assert files[..i + 1][..i] == files[..i];
        assert files[..i + 1][i] == files[i];
        var out := SanitizeFile(files[i].0, files[i].1);
        outs := outs + [out];
        i := i + 1;
      }
      assert files[..i] == files;
    }

    /** The safe streaming history of the given streaming-history files. */
    method CreateSafeStreamingHistory(files: seq<Loaded>) returns (safe: seq<Json>)
      ensures safe == SafeStreaming(files)
    {
      safe := [];
      var k := 0;
      while k < |files|
        invariant 0 <= k <= |files|
        invariant safe == SafeStreaming(files[..k])
      {
        assert files[..k + 1][..k] == files[..k];
        var f := files[k];
        assert files[..k + 1][k] == f;
        if f.Parsed? && f.data.Arr? {
          var entries := CollectSafeEntries(f.data.items);
          assert SafeStreaming(files[..k + 1]) == SafeStreaming(files[..k]) + entries;
          safe := safe + entries;
        } else {
          assert SafeStreaming(files[..k + 1]) == SafeStreaming(files[..k]) + [];
          assert safe + [] == safe;
        }
        k := k + 1;
      }
      assert files[..k] == files;
    }

    /** The records one streaming file contributes, up to its first entry that is not a dict. */
    method CollectSafeEntries(items: seq<Json>) returns (safe: seq<Json>)
      ensures safe == SafeEntries(items)
    {
      safe := [];
      var i := 0;
      while i < |items| && items[i].Obj?
        invariant 0 <= i <= LeadingRun(items, IsDict)
        invariant safe == Sift(items[..i], SafeKept, SafeEntry)
      {
        assert items[..i + 1][..i] == items[..i];
        var safeEntry := SafeEntry(items[i]);
        if ValidSafe(safeEntry) {
          safe := safe + [safeEntry];
        }
        i := i + 1;
      }
      assert i == LeadingRun(items, IsDict);
    }

    /** The safe copy of one playlist, built item by item. */
    method MakeSafePlaylist(p: Json) returns (r: Option<Json>)
      ensures r == SafePlaylist(p)
    {
      if !p.Obj? {
        return None;
      }
      var head := [("name", GetOr(p.fields, "name", Str(""))),
                   ("description", GetOr(p.fields, "description", Str(""))),
                   ("numberOfFollowers", GetOr(p.fields, "numberOfFollowers", Int(0)))];
      var safeItems: seq<Json> := [];
      if HasKey(p.fields, "items") {
        var iter := Iter(GetOr(p.fields, "items", Null));
        if iter.None? {
          return None;
        }
        var items := iter.value;
        var i := 0;
        while i < |items|
          invariant 0 <= i <= |items|
          invariant SafeItems(items[..i]) == Some(safeItems)
        {
          SafeItemsSnoc(items, i);
          var item := SafeItem(items[i]);
          if item.None? {
            return None;
          }
          safeItems := safeItems + [item.value];
          i := i + 1;
        }
        assert items[..i] == items;
      }
      return Some(Obj(head + [("items", Arr(safeItems))]));
    }

    /** The safe copies of one file's playlists, up to the first one that raises. */
    method CollectSafePlaylists(pls: seq<Json>) returns (out: seq<Json>)
      ensures out == SafePlaylistsOf(pls)
    {
      out := [];
      var i := 0;
      while i < |pls|
        invariant 0 <= i <= LeadingRun(pls, PlaylistOk)
        invariant out == Sift(pls[..i], PlaylistOk, PlaylistOrSelf)
      {
        var s := MakeSafePlaylist(pls[i]);
        if s.None? {
          break;
        }
        assert PlaylistOk(pls[i]) && PlaylistOrSelf(pls[i]) == s.value;
        assert i < LeadingRun(pls, PlaylistOk);
        assert pls[..i + 1][..i] == pls[..i] && pls[..i + 1][i] == pls[i];
        out := out + [s.value];
        i := i + 1;
      }
      assert i == LeadingRun(pls, PlaylistOk);
    }

    /** The safe playlists of the given playlist files. */
    method CreateSafePlaylists(files: seq<Loaded>) returns (safe: seq<Json>)
      ensures safe == SafePlaylists(files)
    {
      safe := [];
      var k := 0;
      while k < |files|
        invariant 0 <= k <= |files|
        invariant safe == SafePlaylists(files[..k])
      {
        assert files[..k + 1][..k] == files[..k];
        var src := PlaylistSource(files[k]);
        if src.Some? {
          var added := CollectSafePlaylists(src.value);
          safe := safe + added;
        }
        k := k + 1;
      }
      assert files[..k] == files;
    }
  }

  /** A file that `sanitize_file` sanitises and saves: it opened and parsed, and it is not skipped. */
  predicate Eligible(f: (string, Loaded)) {
    f.1.Parsed? && !ShouldSkipFile(f.0)
  }

  /**
   * What `sanitize_file` returns for one file and is then saved: the sanitised
   * copy of an eligible file, nothing otherwise. A file holding `null` sanitises
   * to None, which is not saved either.
   */
  function FileOutput(re: Redactor, f: (string, Loaded)): (r: Option<Json>)
    ensures r.Some? <==> Eligible(f) && !f.1.data.Null?
    ensures r.Some? ==> NoSensitiveKeys(r.value)
  {
    if Eligible(f) && !f.1.data.Null? then
      SanitizedHasNoSensitiveKeys(re, f.1.data);
      Some(Sanitized(re, f.1.data))
    else None
  }

  /** How many of the files are eligible. */
  function EligibleCount(files: seq<(string, Loaded)>): (n: nat)
    ensures n <= ParsedCount(files)
  {
    if files == [] then 0
    else EligibleCount(files[..|files| - 1]) + (if Eligible(files[|files| - 1]) then 1 else 0)
  }

  /** The redactions made in the eligible files, one file after the other. */
  function FilesRedactions(re: Redactor, files: seq<(string, Loaded)>): nat {
    if files == [] then 0
    else
      var f := files[|files| - 1];
      FilesRedactions(re, files[..|files| - 1]) + (if Eligible(f) then Redactions(re, f.1.data) else 0)
  }

  /**
   * How many eligible files leave the running redaction total, which starts at
   * `base`, above zero once they are done: the total is never reset, so this
   * counts every eligible file from the first redaction on.
   */
  function SanitizedCount(re: Redactor, files: seq<(string, Loaded)>, base: nat): (n: nat)
    ensures n <= EligibleCount(files)
  {
    if files == [] then 0
    else
      var f := files[|files| - 1];
      SanitizedCount(re, files[..|files| - 1], base) + (if Eligible(f) && base + FilesRedactions(re, files) > 0 then 1 else 0)
  }

  /** Once a redaction has been counted, every later eligible file counts as sanitised, whether or not it had one. */
  lemma {:induction false} SanitizedAfterRedaction(re: Redactor, files: seq<(string, Loaded)>, base: nat)
    requires base > 0
    ensures SanitizedCount(re, files, base) == EligibleCount(files)
  {
    if files != [] {
      SanitizedAfterRedaction(re, files[..|files| - 1], base);
    }
  }

  /** Without any redaction so far, no file counts as sanitised. */
  lemma {:induction false} SanitizedWithoutRedaction(re: Redactor, files: seq<(string, Loaded)>)
    requires FilesRedactions(re, files) == 0
    ensures SanitizedCount(re, files, 0) == 0
  {
    if files != [] {
      SanitizedWithoutRedaction(re, files[..|files| - 1]);
    }
  }

  /** How many of the files could be read and parsed. */
  function ParsedCount(files: seq<(string, Loaded)>): nat {
    if files == [] then 0
    else ParsedCount(files[..|files| - 1]) + (if files[|files| - 1].1.Parsed? then 1 else 0)
  }
}
