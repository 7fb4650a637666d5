/**
 * The privacy analysis of an export: every JSON file is walked recursively,
 * and field names and values are matched against lists of sensitive field
 * names and against regular expressions. A file with no issues is "safe",
 * any other file (or one that cannot be read) is "risky", and a list of
 * recommendations summarises what was found.
 *
 * The regular expressions are not modelled: `Finder` is `re.findall`, each
 * match already rendered as it appears inside a printed Python list.
 */
module Privacy {
  import opened JsonValue
  import Tally

  /** `re.findall(sensitive_patterns[name], text)`: the matches, each as `repr` prints it. */
  type Finder = (string, string) -> seq<string>

  /** The pattern names, in the order the scans try them. */
  const PatternNames: seq<string> :=
    ["ip_addresses", "email_addresses", "device_ids", "spotify_uris",
     "mac_addresses", "phone_numbers", "credit_cards"]

  const HighRisk: seq<string> :=
    ["ip_addr", "ipAddress", "ip_address", "ipAddrDecrypted",
     "email", "emailAddress", "email_address",
     "phone", "phoneNumber", "phone_number",
     "deviceId", "device_id", "deviceIdDecrypted",
     "macAddress", "mac_address",
     "creditCard", "credit_card", "cardNumber",
     "password", "token", "accessToken", "refreshToken",
     "sessionId", "session_id",
     "userId", "user_id", "username",
     "address", "street", "city", "zip", "postalCode",
     "ssn", "socialSecurity", "passport"]

  const MediumRisk: seq<string> :=
    ["location", "latitude", "longitude", "gps",
     "timezone", "timeZone",
     "language", "locale",
     "platform", "os", "operatingSystem",
     "browser", "userAgent",
     "connection", "network", "wifi",
     "bluetooth", "bluetoothAddress"]

  const LowRisk: seq<string> :=
    ["timestamp", "date", "time",
     "duration", "msPlayed",
     "trackName", "artistName", "albumName",
     "playlistName", "playlist_name"]

  /** The risk levels with their field names, in the order the name check tries them. */
  const RiskLevels: seq<(string, seq<string>)> :=
    [("high_risk", HighRisk), ("medium_risk", MediumRisk), ("low_risk", LowRisk)]

  /**
   * What the scans look for: the pattern finder with the pattern names in
   * order, and the risk levels with their field names in order.
   */
  datatype Rules = Rules(find: Finder, patterns: seq<string>, levels: seq<(string, seq<string>)>)

  /** The rules of the analysis, with `find` standing for the patterns' regular expressions. */
  function SpotifyRules(find: Finder): (r: Rules)
    ensures r.find == find && r.patterns == PatternNames && r.levels == RiskLevels
  {
    Rules(find, PatternNames, RiskLevels)
  }

  /** Numbers above this are reported as possible identifiers. */
  const LargeNumberThreshold: int := 1000000000000

  /** One reported issue; `Text` gives the message the analysis stores for it. */
  datatype Issue =
    | PathMatch(pattern: string, found: seq<string>)
    | FieldMatch(field: string, context: string, level: string, entry: string)
    | FieldNamePattern(field: string, context: string, pattern: string)
    | ValueMatch(context: string, pattern: string, found: seq<string>)
    | LargeNumber(context: string, value: int)
    | ReadError(reason: string)

  /** `", ".join(xs)`. */
  function Join(xs: seq<string>): string {
    if xs == [] then "" else if |xs| == 1 then xs[0] else Join(xs[..|xs| - 1]) + ", " + xs[|xs| - 1]
  }

  /** A list of already-rendered elements as `str(list)` prints it. */
  function ListText(xs: seq<string>): string {
    "[" + Join(xs) + "]"
  }

  /** The pattern a pattern issue names; other issues name none. */
  function PatternOf(issue: Issue): Option<string> {
    match issue
    case PathMatch(p, _) => Some(p)
    case FieldNamePattern(_, _, p) => Some(p)
    case ValueMatch(_, p, _) => Some(p)
    case _ => None
  }

  /** The message of an issue, as the script formats it; it names the pattern or field the issue is about. */
  function Text(issue: Issue): (r: string)
    ensures PatternOf(issue).Some? ==> Contains(r, PatternOf(issue).value)
    ensures issue.FieldMatch? ==> Contains(r, issue.field) && Contains(r, issue.entry)
    ensures issue.FieldNamePattern? ==> Contains(r, issue.field)
    ensures issue.ReadError? ==> Contains(r, issue.reason)
  {
    match issue
    case PathMatch(p, found) =>
      var tail := ": " + ListText(found);
      ContainsMiddle("Path contains ", p, tail);
      "Path contains " + p + tail
    case FieldMatch(f, ctx, level, entry) =>
      var tail := "' in " + ctx + " matches " + level + " pattern: ";
      assert "Field '" + f + tail + entry == "Field '" + f + (tail + entry);
      ContainsMiddle("Field '", f, tail + entry);
      ContainsConcat("Field '" + f + tail, entry);
      "Field '" + f + tail + entry
    case FieldNamePattern(f, ctx, p) =>
      var tail := "' in " + ctx + " contains ";
      assert "Field name '" + f + tail + p == "Field name '" + f + (tail + p);
      ContainsMiddle("Field name '", f, tail + p);
      ContainsConcat("Field name '" + f + tail, p);
      "Field name '" + f + tail + p
    case ValueMatch(ctx, p, found) =>
      var tail := ": " + ListText(if |found| <= 3 then found else found[..3]) + "...";
      ContainsMiddle("Value in " + ctx + " contains ", p, tail);
      "Value in " + ctx + " contains " + p + tail
    case LargeNumber(ctx, n) => "Large numeric value in " + ctx + ": " + IntToString(n)
    case ReadError(reason) =>
      ContainsConcat("Error reading file: ", reason);
      "Error reading file: " + reason
  }

  // ------------------------------------------------------------ field names

  /** The issues one risk level's list raises for a field name, in list order. */
  function LevelIssues(name: string, ctx: string, level: string, fields: seq<string>): seq<Issue> {
    if fields == [] then []
    else
      var entry := fields[|fields| - 1];
      LevelIssues(name, ctx, level, fields[..|fields| - 1])
      + (if Contains(Lower(name), Lower(entry)) then [FieldMatch(name, ctx, level, entry)] else [])
  }

  function RiskIssues(name: string, ctx: string, levels: seq<(string, seq<string>)>): seq<Issue> {
    if levels == [] then []
    else
      var (level, fields) := levels[|levels| - 1];
      RiskIssues(name, ctx, levels[..|levels| - 1]) + LevelIssues(name, ctx, level, fields)
  }

  /** One issue per pattern that occurs in the field name (`re.search` finds a match iff `re.findall` finds one). */
  function NamePatternIssues(find: Finder, name: string, ctx: string, pats: seq<string>): (r: seq<Issue>)
    ensures forall x :: x in r ==> x.FieldNamePattern? && x == FieldNamePattern(name, ctx, x.pattern) && x.pattern in pats
    ensures forall p :: p in pats ==> (FieldNamePattern(name, ctx, p) in r <==> find(p, name) != [])
  {
    if pats == [] then []
    else
      var p := pats[|pats| - 1];
      NamePatternIssues(find, name, ctx, pats[..|pats| - 1])
      + (if find(p, name) != [] then [FieldNamePattern(name, ctx, p)] else [])
  }

  /** What checking one field name reports. */
  function NameIssues(rules: Rules, name: string, ctx: string): seq<Issue> {
    RiskIssues(name, ctx, rules.levels) + NamePatternIssues(rules.find, name, ctx, rules.patterns)
  }

  lemma {:induction false} LevelIssuesIff(name: string, ctx: string, level: string, fields: seq<string>, x: Issue)
    ensures x in LevelIssues(name, ctx, level, fields) <==>
      x.FieldMatch? && x.field == name && x.context == ctx && x.level == level
      && x.entry in fields && Contains(Lower(name), Lower(x.entry))
  {
    if fields != [] {
      var init := fields[..|fields| - 1];
      LevelIssuesIff(name, ctx, level, init, x);
      assert fields == init + [fields[|fields| - 1]];
    }
  }

  lemma {:induction false} RiskIssuesIff(name: string, ctx: string, levels: seq<(string, seq<string>)>, x: Issue)
    ensures x in RiskIssues(name, ctx, levels) <==>
      x.FieldMatch? && x.field == name && x.context == ctx
      && (exists i :: 0 <= i < |levels| && levels[i].0 == x.level && x.entry in levels[i].1)
      && Contains(Lower(name), Lower(x.entry))
  {
    if levels != [] {
      var init := levels[..|levels| - 1];
      var last := levels[|levels| - 1];
      RiskIssuesIff(name, ctx, init, x);
      LevelIssuesIff(name, ctx, last.0, last.1, x);
      if x in RiskIssues(name, ctx, levels) {
        if x in LevelIssues(name, ctx, last.0, last.1) {
          assert levels[|levels| - 1].0 == x.level && x.entry in levels[|levels| - 1].1;
        } else {
          var i :| 0 <= i < |init| && init[i].0 == x.level && x.entry in init[i].1;
          assert levels[i] == init[i];
        }
      } else if x.FieldMatch? && x.field == name && x.context == ctx && Contains(Lower(name), Lower(x.entry)) {
        forall i | 0 <= i < |levels| && levels[i].0 == x.level
          ensures x.entry !in levels[i].1
        {
          if i < |init| {
            assert init[i] == levels[i];
          }
        }
      }
    }
  }

  /**
   * A field name raises the issue "matches <level> pattern: <entry>" exactly
   * when `entry` is on the list of `level` and its lower-case form occurs in the
   * lower-cased name; every such pair raises one, so a name can raise several.
   */
  lemma FieldMatchIff(rules: Rules, name: string, ctx: string, f: string, c: string, level: string, entry: string)
    ensures FieldMatch(f, c, level, entry) in NameIssues(rules, name, ctx) <==>
      f == name && c == ctx
      && (exists i :: 0 <= i < |rules.levels| && rules.levels[i].0 == level && entry in rules.levels[i].1)
      && Contains(Lower(name), Lower(entry))
  {
    RiskIssuesIff(name, ctx, rules.levels, FieldMatch(f, c, level, entry));
  }

  // ------------------------------------------------------------ field values

  function ValuePatternIssues(find: Finder, s: string, ctx: string, pats: seq<string>): (r: seq<Issue>)
    ensures forall x :: x in r ==> x.ValueMatch? && x.context == ctx && x.pattern in pats && x.found == find(x.pattern, s) != []
    ensures forall p :: p in pats && find(p, s) != [] ==> ValueMatch(ctx, p, find(p, s)) in r
  {
    if pats == [] then []
    else
      var p := pats[|pats| - 1];
      ValuePatternIssues(find, s, ctx, pats[..|pats| - 1])
      + (if find(p, s) != [] then [ValueMatch(ctx, p, find(p, s))] else [])
  }

  /** What checking one value reports: pattern matches in a string, or a number above the threshold. */
  function ValueIssues(rules: Rules, v: Json, ctx: string): (r: seq<Issue>)
    ensures v.Str? ==> forall x :: x in r ==> x.ValueMatch? && x.context == ctx && x.found == rules.find(x.pattern, v.s) != []
    ensures v.Str? ==> forall p :: p in rules.patterns && rules.find(p, v.s) != [] ==> ValueMatch(ctx, p, rules.find(p, v.s)) in r
    ensures v.Int? && v.i > LargeNumberThreshold ==> r == [LargeNumber(ctx, v.i)]
    ensures v.Int? && v.i <= LargeNumberThreshold ==> r == []
    ensures !v.Str? && !v.Int? ==> r == []
  {
    match v
    case Str(s) => ValuePatternIssues(rules.find, s, ctx, rules.patterns)
    case Int(n) => if n > LargeNumberThreshold then [LargeNumber(ctx, n)] else []
    case _ => []
  }

  // ------------------------------------------------------------ the walk

  /** What walking a value reports, with `ctx` the path to it. */
  function StructureIssues(rules: Rules, obj: Json, ctx: string): seq<Issue>
    decreases obj, 1
  {
    match obj
    case Obj(fs) => DictIssues(rules, fs, ctx)
    case Arr(xs) => ListIssues(rules, xs, ctx)
    case _ => []
  }

  /** Only dicts and lists are walked into. */
  function Nested(rules: Rules, v: Json, ctx: string): seq<Issue>
    decreases v, 2
  {
    if v.Obj? || v.Arr? then StructureIssues(rules, v, ctx) else []
  }

  /** What one key of a dict reports: its name, then its value, then what is nested in the value. */
  function EntryIssues(rules: Rules, key: string, v: Json, ctx: string): seq<Issue>
    decreases v, 3
  {
    NameIssues(rules, key, ctx) + ValueIssues(rules, v, ctx + "." + key) + Nested(rules, v, ctx + "." + key)
  }

  function DictIssues(rules: Rules, fs: seq<(string, Json)>, ctx: string): seq<Issue>
    decreases fs, 0
  {
    if fs == [] then []
    else
      var p := fs[|fs| - 1];
      assert p in fs && p.1 < p;
      DictIssues(rules, fs[..|fs| - 1], ctx) + EntryIssues(rules, p.0, p.1, ctx)
  }

  function ListIssues(rules: Rules, xs: seq<Json>, ctx: string): seq<Issue>
    decreases xs, 0
  {
    if xs == [] then []
    else
      var n := |xs| - 1;
      assert xs[n] in xs;
      ListIssues(rules, xs[..n], ctx) + Nested(rules, xs[n], ctx + "[" + NatToString(n) + "]")
  }

  /** A list whose items are all strings, numbers, booleans or nulls reports nothing. */
  lemma {:induction false} PrimitiveItemsSilent(rules: Rules, xs: seq<Json>, ctx: string)
    requires forall i :: 0 <= i < |xs| ==> !xs[i].Obj? && !xs[i].Arr?
    ensures ListIssues(rules, xs, ctx) == []
  {
    if xs != [] {
      PrimitiveItemsSilent(rules, xs[..|xs| - 1], ctx);
    }
  }

  lemma {:induction false} DictIssuesAppend(rules: Rules, a: seq<(string, Json)>, b: seq<(string, Json)>, ctx: string)
    ensures DictIssues(rules, a + b, ctx) == DictIssues(rules, a, ctx) + DictIssues(rules, b, ctx)
  {
    if b != [] {
      var init := b[..|b| - 1];
      DictIssuesAppend(rules, a, init, ctx);
      assert (a + b)[..|a + b| - 1] == a + init;
      assert (a + b)[|a + b| - 1] == b[|b| - 1];
      ConcatAssoc(DictIssues(rules, a, ctx), DictIssues(rules, init, ctx), EntryIssues(rules, b[|b| - 1].0, b[|b| - 1].1, ctx));
    } else {
      assert a + b == a;
    }
  }

  /**
   * Each key's issues form one contiguous block, in key order, and inside
   * the block come its name issues, then its value issues, then the issues
   * nested in its value.
   */
  lemma KeyIssuesInOrder(rules: Rules, a: seq<(string, Json)>, key: string, v: Json, b: seq<(string, Json)>, ctx: string)
    ensures StructureIssues(rules, Obj(a + [(key, v)] + b), ctx) ==
      DictIssues(rules, a, ctx) + EntryIssues(rules, key, v, ctx) + DictIssues(rules, b, ctx)
  {
    DictIssuesAppend(rules, a + [(key, v)], b, ctx);
    DictIssuesAppend(rules, a, [(key, v)], ctx);
  }

  // ------------------------------------------------------------ the scans as loops

  /** `_check_field_name`. */
  method CheckFieldName(rules: Rules, name: string, ctx: string) returns (issues: seq<Issue>)
    ensures issues == NameIssues(rules, name, ctx)
  {
    issues := [];
    var lower := Lower(name);
    var l := 0;
    while l < |rules.levels|
      invariant 0 <= l <= |rules.levels|
      invariant issues == RiskIssues(name, ctx, rules.levels[..l])
    {
      var (level, fields) := rules.levels[l];
      var levelIssues := [];
      var k := 0;
      while k < |fields|
        invariant 0 <= k <= |fields|
        invariant levelIssues == LevelIssues(name, ctx, level, fields[..k])
      {
        assert fields[..k + 1][..k] == fields[..k];
        if Contains(lower, Lower(fields[k])) {
          levelIssues := levelIssues + [FieldMatch(name, ctx, level, fields[k])];
        }
        k := k + 1;
      }
      assert fields[..k] == fields;
      assert rules.levels[..l + 1][..l] == rules.levels[..l];
      issues := issues + levelIssues;
      l := l + 1;
    }
    assert rules.levels[..l] == rules.levels;
    var patternIssues := [];
    var k := 0;
    while k < |rules.patterns|
      invariant 0 <= k <= |rules.patterns|
      invariant patternIssues == NamePatternIssues(rules.find, name, ctx, rules.patterns[..k])
    {
      assert rules.patterns[..k + 1][..k] == rules.patterns[..k];
      if rules.find(rules.patterns[k], name) != [] {
        patternIssues := patternIssues + [FieldNamePattern(name, ctx, rules.patterns[k])];
      }
      k := k + 1;
    }
    assert rules.patterns[..k] == rules.patterns;
    issues := issues + patternIssues;
  }

  /** The string case of `_check_field_value`: every pattern in order, keeping those that match. */
  method ScanValue(find: Finder, s: string, ctx: string, pats: seq<string>) returns (issues: seq<Issue>)
    ensures issues == ValuePatternIssues(find, s, ctx, pats)
  {
    issues := [];
    var k := 0;
    while k < |pats|
      invariant 0 <= k <= |pats|
      invariant issues == ValuePatternIssues(find, s, ctx, pats[..k])
    {
      assert pats[..k + 1][..k] == pats[..k];
      var matches := find(pats[k], s);
      if matches != [] {
        issues := issues + [ValueMatch(ctx, pats[k], matches)];
      }
      k := k + 1;
    }
    assert pats[..k] == pats;
  }

  /** `_check_field_value`. */
  method CheckFieldValue(rules: Rules, v: Json, ctx: string) returns (issues: seq<Issue>)
    ensures issues == ValueIssues(rules, v, ctx)
  {
    issues := [];
    match v
    case Str(s) =>
      issues := ScanValue(rules.find, s, ctx, rules.patterns);
    case Int(n) =>
      if n > LargeNumberThreshold {
        issues := [LargeNumber(ctx, n)];
      }
    case _ =>
  }

  /** `_analyze_json_structure`. */
  method AnalyzeStructure(rules: Rules, obj: Json, ctx: string) returns (issues: seq<Issue>)
    ensures issues == StructureIssues(rules, obj, ctx)
    decreases obj, 1
  {
    match obj
    case Obj(fs) => issues := AnalyzeDict(rules, fs, ctx);
    case Arr(xs) => issues := AnalyzeList(rules, xs, ctx);
    case _ => issues := [];
  }

  /** One key of a dict: its name, its value, then what is nested in the value. */
  method AnalyzeEntry(rules: Rules, key: string, value: Json, ctx: string) returns (issues: seq<Issue>)
    ensures issues == EntryIssues(rules, key, value, ctx)
    decreases value, 2
  {
    var keyIssues := CheckFieldName(rules, key, ctx);
    var valueIssues := CheckFieldValue(rules, value, ctx + "." + key);
    issues := keyIssues + valueIssues;
    if value.Obj? || value.Arr? {
      var nested := AnalyzeStructure(rules, value, ctx + "." + key);
      issues := issues + nested;
    }
  }

  method AnalyzeDict(rules: Rules, fs: seq<(string, Json)>, ctx: string) returns (issues: seq<Issue>)
    ensures issues == DictIssues(rules, fs, ctx)
    decreases fs, 0
  {
    issues := [];
    var i := 0;
    while i < |fs|
      invariant 0 <= i <= |fs|
      invariant issues == DictIssues(rules, fs[..i], ctx)
    {
      assert fs[..i + 1][..i] == fs[..i];
      assert fs[i] in fs && fs[i].1 < fs[i];
      var entry := AnalyzeEntry(rules, fs[i].0, fs[i].1, ctx);
      issues := issues + entry;
      i := i + 1;
    }
    assert fs[..i] == fs;
  }

  method AnalyzeList(rules: Rules, xs: seq<Json>, ctx: string) returns (issues: seq<Issue>)
    ensures issues == ListIssues(rules, xs, ctx)
    decreases xs, 0
  {
    issues := [];
    var i := 0;
    while i < |xs|
      invariant 0 <= i <= |xs|
      invariant issues == ListIssues(rules, xs[..i], ctx)
    {
      assert xs[..i + 1][..i] == xs[..i];
      assert xs[i] in xs;
      if xs[i].Obj? || xs[i].Arr? {
        var nested := AnalyzeStructure(rules, xs[i], ctx + "[" + NatToString(i) + "]");
        issues := issues + nested;
      }
      i := i + 1;
    }
    assert xs[..i] == xs;
  }

  // ------------------------------------------------------------ one file

  /** The matches of each pattern in the file's path. */
  function PathIssues(find: Finder, path: string, pats: seq<string>): (r: seq<Issue>)
    ensures forall x :: x in r ==> x.PathMatch? && x.pattern in pats && x.found == find(x.pattern, path) != []
    ensures forall p :: p in pats && find(p, path) != [] ==> PathMatch(p, find(p, path)) in r
  {
    if pats == [] then []
    else
      var p := pats[|pats| - 1];
      PathIssues(find, path, pats[..|pats| - 1]) + (if find(p, path) != [] then [PathMatch(p, find(p, path))] else [])
  }

  /** Everything a readable file reports: its path, then its contents, with the file name as the root context. */
  function FileIssues(rules: Rules, path: string, data: Json): seq<Issue> {
    PathIssues(rules.find, path, rules.patterns) + StructureIssues(rules, data, BaseName(path))
  }

  // ------------------------------------------------------------ recommendations

  datatype Recommendation =
    | AllSafe
    | RiskyCount(files: nat)
    | IssueType(category: string, count: int)
    | ExcludeTechnicalLogs
    | AnonymizeIps
    | RedactEmails
    | AnonymizeDevices

  function Message(r: Recommendation): string {
    match r
    case AllSafe => "✅ All files appear to be safe for GitHub publication"
    case RiskyCount(n) => "⚠️  Found " + NatToString(n) + " files with potential sensitive data"
    case IssueType(c, n) => "  - " + c + ": " + IntToString(n) + " instances found"
    case ExcludeTechnicalLogs =>
      "\U{1F6A8} RECOMMENDATION: Consider excluding 'Spotify Technical Log Information' directory entirely"
    case AnonymizeIps => "\U{1F512} RECOMMENDATION: Remove or anonymize IP addresses before publishing"
    case RedactEmails => "\U{1F4E7} RECOMMENDATION: Remove or redact email addresses before publishing"
    case AnonymizeDevices => "\U{1F4F1} RECOMMENDATION: Remove or anonymize device IDs before publishing"
  }

  const Categories: seq<string> := ["IP Addresses", "Email Addresses", "Device IDs", "Spotify URIs", "Other"]

  /** The one category an issue is counted under: the first pattern name its message mentions. */
  function Category(issue: Issue): (c: string)
    ensures c in Categories
  {
    var t := Text(issue);
    if Contains(t, "ip_addresses") then "IP Addresses"
    else if Contains(t, "email_addresses") then "Email Addresses"
    else if Contains(t, "device_ids") then "Device IDs"
    else if Contains(t, "spotify_uris") then "Spotify URIs"
    else "Other"
  }

  /** All issues of all risky files, file by file. */
  function AllIssues(risky: seq<(string, seq<Issue>)>): seq<Issue> {
    if risky == [] then [] else AllIssues(risky[..|risky| - 1]) + risky[|risky| - 1].1
  }

  /** The bumps the grouping loop makes: one per issue, under its category. */
  function CategoryBumps(issues: seq<Issue>, category: Issue -> string): (ps: seq<(string, int)>)
    ensures |ps| == |issues|
  {
    if issues == [] then [] else CategoryBumps(issues[..|issues| - 1], category) + [(category(issues[|issues| - 1]), 1)]
  }

  lemma BumpsSnoc(issues: seq<Issue>, x: Issue, category: Issue -> string)
    ensures Tally.Fold(CategoryBumps(issues + [x], category))
         == Tally.Bump(Tally.Fold(CategoryBumps(issues, category)), category(x), 1)
  {
    assert (issues + [x])[..|issues|] == issues;
  }

  lemma AllIssuesSnoc(risky: seq<(string, seq<Issue>)>, i: nat)
    requires i < |risky|
    ensures AllIssues(risky[..i + 1]) == AllIssues(risky[..i]) + risky[i].1
  {
    assert risky[..i + 1][..i] == risky[..i];
  }

  /** The `issue_types` counter. */
  function IssueTypes(risky: seq<(string, seq<Issue>)>): Tally.Counts<string> {
    Tally.Fold(CategoryBumps(AllIssues(risky), Category))
  }

  function CountLines(c: Tally.Counts<string>): (r: seq<Recommendation>)
    ensures |r| == |c|
    ensures forall i :: 0 <= i < |c| ==> r[i] == IssueType(c[i].0, c[i].1)
  {
    seq(|c|, i requires 0 <= i < |c| => IssueType(c[i].0, c[i].1))
  }

  /** `pattern in str(issues)` for one file's issue list. */
  predicate Mentions(issues: seq<Issue>, pattern: string) {
    exists i :: 0 <= i < |issues| && Contains(Text(issues[i]), pattern)
  }

  predicate AnyMentions(found: map<string, seq<Issue>>, pattern: string) {
    exists path :: path in found && Mentions(found[path], pattern)
  }

  /** The specific recommendations, from the files with issues. */
  function Advice(found: map<string, seq<Issue>>): (r: seq<Recommendation>)
    ensures found == map[] ==> r == []
    ensures AllSafe !in r
  {
    (if exists path :: path in found && Contains(path, "Technical Log Information") then [ExcludeTechnicalLogs] else [])
    + (if AnyMentions(found, "ip_addresses") then [AnonymizeIps] else [])
    + (if AnyMentions(found, "email_addresses") then [RedactEmails] else [])
    + (if AnyMentions(found, "device_ids") then [AnonymizeDevices] else [])
  }

  /** The recommendation list: the all-safe line or the risky count with one line per category, then the advice. */
  function Recommendations(risky: seq<(string, seq<Issue>)>, found: map<string, seq<Issue>>): (r: seq<Recommendation>)
    ensures AllSafe in r <==> risky == []
    ensures |r| > 0 && r[0] == (if risky == [] then AllSafe else RiskyCount(|risky|))
  {
    (if risky == [] then [AllSafe] else [RiskyCount(|risky|)] + CountLines(IssueTypes(risky)))
    + Advice(found)
  }

  /**
   * A file with a pattern issue for IP addresses, e-mail addresses or device
   * identifiers gets the matching advice: the issue's message names its
   * pattern, so the pattern occurs in the text of the file's issues.
   */
  lemma PatternAdvice(found: map<string, seq<Issue>>, path: string, i: nat)
    requires path in found && i < |found[path]|
    ensures PatternOf(found[path][i]) == Some("ip_addresses") ==> AnonymizeIps in Advice(found)
    ensures PatternOf(found[path][i]) == Some("email_addresses") ==> RedactEmails in Advice(found)
    ensures PatternOf(found[path][i]) == Some("device_ids") ==> AnonymizeDevices in Advice(found)
  {
    var x := found[path][i];
    if PatternOf(x).Some? {
      assert Contains(Text(x), PatternOf(x).value);
      assert Mentions(found[path], PatternOf(x).value);
    }
  }

  /**
   * The all-safe line appears iff no file is risky, and then (every file with
   * issues being a risky file) it is the only recommendation.
   */
  lemma AllSafeIff(risky: seq<(string, seq<Issue>)>, found: map<string, seq<Issue>>)
    requires forall path :: path in found ==> (path, found[path]) in risky
    ensures AllSafe in Recommendations(risky, found) <==> risky == []
    ensures risky == [] ==> Recommendations(risky, found) == [AllSafe]
  {
    var c := IssueTypes(risky);
    assert AllSafe !in Advice(found);
    assert risky != [] ==> AllSafe !in CountLines(c);
    if risky == [] {
      assert forall path :: path !in found;
      assert Advice(found) == [];
    }
  }

  /** The number of issues classified under `cat`. */
  function CategoryCount(issues: seq<Issue>, category: Issue -> string, cat: string): nat {
    if issues == [] then 0
    else CategoryCount(issues[..|issues| - 1], category, cat) + (if category(issues[|issues| - 1]) == cat then 1 else 0)
  }

  lemma {:induction false} BumpsWeight(issues: seq<Issue>, category: Issue -> string, cat: string)
    ensures Tally.WeightOf(CategoryBumps(issues, category), cat) == CategoryCount(issues, category, cat)
    ensures Tally.TotalWeight(CategoryBumps(issues, category)) == |issues|
  {
    if issues != [] {
      var init := issues[..|issues| - 1];
      BumpsWeight(init, category, cat);
      assert CategoryBumps(issues, category)[..|issues| - 1] == CategoryBumps(init, category);
    }
  }

  /** Each category's count is the number of issues classified under it. */
  lemma CategoryCounts(risky: seq<(string, seq<Issue>)>, cat: string)
    ensures Tally.Get(IssueTypes(risky), cat) == CategoryCount(AllIssues(risky), Category, cat)
  {
    Tally.FoldGet(CategoryBumps(AllIssues(risky), Category), cat);
    BumpsWeight(AllIssues(risky), Category, cat);
  }

  /** Every issue is counted exactly once: the counts add up to the number of issues. */
  lemma CategoryCountsSum(risky: seq<(string, seq<Issue>)>)
    ensures Tally.SumValues(IssueTypes(risky)) == |AllIssues(risky)|
  {
    Tally.FoldSum(CategoryBumps(AllIssues(risky), Category));
    BumpsWeight(AllIssues(risky), Category, "Other");
  }

  /** The inner grouping loop: bump the category of each issue of one file. */
  method BumpCategories(types: Tally.Counts<string>, ghost before: seq<Issue>, issues: seq<Issue>, category: Issue -> string)
    returns (bumped: Tally.Counts<string>)
    requires types == Tally.Fold(CategoryBumps(before, category))
    ensures bumped == Tally.Fold(CategoryBumps(before + issues, category))
  {
    bumped := types;
    assert before + issues[..0] == before;
    var j := 0;
    while j < |issues|
      invariant 0 <= j <= |issues|
      invariant bumped == Tally.Fold(CategoryBumps(before + issues[..j], category))
    {
      assert issues[..j + 1] == issues[..j] + [issues[j]];
      ConcatAssoc(before, issues[..j], [issues[j]]);
      BumpsSnoc(before + issues[..j], issues[j], category);
      bumped := Tally.Bump(bumped, category(issues[j]), 1);
      j := j + 1;
    }
    assert issues[..j] == issues;
  }

  /** The path check of `analyze_file`: every pattern in order, keeping those that match. */
  method ScanPath(find: Finder, path: string, pats: seq<string>) returns (issues: seq<Issue>)
    ensures issues == PathIssues(find, path, pats)
  {
    issues := [];
    var k := 0;
    while k < |pats|
      invariant 0 <= k <= |pats|
      invariant issues == PathIssues(find, path, pats[..k])
    {
      assert pats[..k + 1][..k] == pats[..k];
      var matches := find(pats[k], path);
      if matches != [] {
        issues := issues + [PathMatch(pats[k], matches)];
      }
      k := k + 1;
    }
    assert pats[..k] == pats;
  }

  /** One "issue type: count" line per category, in first-seen order. */
  method IssueTypeLines(types: Tally.Counts<string>) returns (lines: seq<Recommendation>)
    ensures lines == CountLines(types)
  {
    lines := [];
    var k := 0;
    while k < |types|
      invariant 0 <= k <= |types|
      invariant |lines| == k
      invariant forall t :: 0 <= t < k ==> lines[t] == IssueType(types[t].0, types[t].1)
    {
      lines := lines + [IssueType(types[k].0, types[k].1)];
      k := k + 1;
    }
  }

  /** The grouping loop of `generate_recommendations`: one bump per issue of every risky file. */
  method CountIssueTypes(risky: seq<(string, seq<Issue>)>) returns (types: Tally.Counts<string>)
    ensures types == IssueTypes(risky)
  {
    types := [];
    ghost var seen: seq<Issue> := [];
    assert risky[..0] == [];
    var i := 0;
    while i < |risky|
      invariant 0 <= i <= |risky|
      invariant seen == AllIssues(risky[..i])
      invariant types == Tally.Fold(CategoryBumps(seen, Category))
    {
      AllIssuesSnoc(risky, i);
      types := BumpCategories(types, seen, risky[i].1, Category);
      seen := seen + risky[i].1;
      i := i + 1;
    }
    assert risky[..i] == risky;
  }

  // ------------------------------------------------------------ the filter

  /** `SpotifyPrivacyFilter` and its `analysis_results`. */
  class PrivacyFilter {
    const rules: Rules
    var filesAnalyzed: nat
    var sensitiveDataFound: map<string, seq<Issue>>
    var recommendations: seq<Recommendation>
    var safeFiles: seq<string>
    var riskyFiles: seq<(string, seq<Issue>)>
    /** The files that could not be read; the analysis does not count them. */
    ghost var readErrors: nat

    /**
     * Every file looked at is either safe or risky, the analysed count leaves
     * out the unreadable ones, a risky file always has an issue, and every
     * entry of `sensitive_data_found` is one of the risky files.
     */
    ghost predicate Valid()
      reads this
    {
      && filesAnalyzed + readErrors == |safeFiles| + |riskyFiles|
      && (forall i :: 0 <= i < |riskyFiles| ==> riskyFiles[i].1 != [])
      && (forall path :: path in sensitiveDataFound ==> (path, sensitiveDataFound[path]) in riskyFiles)
    }

    constructor(find: Finder)
      ensures rules == SpotifyRules(find)
      ensures filesAnalyzed == 0 && readErrors == 0
      ensures sensitiveDataFound == map[] && recommendations == []
      ensures safeFiles == [] && riskyFiles == []
      ensures Valid()
    {
      rules := SpotifyRules(find);
      filesAnalyzed := 0;
      readErrors := 0;
      sensitiveDataFound := map[];
      recommendations := [];
      safeFiles := [];
      riskyFiles := [];
    }

    /** `analyze_file`: `f` is what opening and parsing the file gave. */
    method AnalyzeFile(path: string, f: Loaded)
      requires Valid()
      modifies this
      ensures Valid()
      ensures recommendations == old(recommendations)
      ensures f.Parsed? ==>
        var issues := FileIssues(rules, path, f.data);
        && filesAnalyzed == old(filesAnalyzed) + 1
        && readErrors == old(readErrors)
        && (issues == [] ==>
              safeFiles == old(safeFiles) + [path] && riskyFiles == old(riskyFiles)
              && sensitiveDataFound == old(sensitiveDataFound))
        && (issues != [] ==>
              safeFiles == old(safeFiles) && riskyFiles == old(riskyFiles) + [(path, issues)]
              && sensitiveDataFound == old(sensitiveDataFound)[path := issues])
      ensures f.Unreadable? ==>
        && filesAnalyzed == old(filesAnalyzed)
        && readErrors == old(readErrors) + 1
        && safeFiles == old(safeFiles)
        && riskyFiles == old(riskyFiles) + [(path, [ReadError(f.reason)])]
        && sensitiveDataFound == old(sensitiveDataFound)
    {
      if f.Unreadable? {
        riskyFiles := riskyFiles + [(path, [ReadError(f.reason)])];
        readErrors := readErrors + 1;
        return;
      }
      var fileIssues := ScanPath(rules.find, path, rules.patterns);
      var issues := AnalyzeStructure(rules, f.data, BaseName(path));
      fileIssues := fileIssues + issues;
      if fileIssues != [] {
        riskyFiles := riskyFiles + [(path, fileIssues)];
        sensitiveDataFound := sensitiveDataFound[path := fileIssues];
      } else {
        safeFiles := safeFiles + [path];
      }
      filesAnalyzed := filesAnalyzed + 1;
    }

    /** `generate_recommendations`. */
    method GenerateRecommendations()
      modifies this`recommendations
      ensures recommendations == Recommendations(riskyFiles, sensitiveDataFound)
    {
      var recs: seq<Recommendation>;
      if |riskyFiles| == 0 {
        recs := [AllSafe];
      } else {
        var types := CountIssueTypes(riskyFiles);
        var lines := IssueTypeLines(types);
        recs := [RiskyCount(|riskyFiles|)] + lines;
      }
      recommendations := recs + Advice(sensitiveDataFound);
    }
  }
}
