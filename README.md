# Spotify export tooling, modelled in Dafny

The repository is a set of batch scripts over a Spotify data export. This
project models their logic, not their file handling:

- `merge_data.py`: list-shaped streaming-history files and playlist files are
  concatenated and counted, the three account files are reduced to a few
  non-sensitive fields, and the merged play records are cleaned.
- `sanitize_data.py`: JSON trees are rewritten recursively. Sensitive keys are
  dropped and strings are redacted. Some files are skipped outright, and
  safe streaming and playlist copies are projected.
- `privacy_filter.py`: JSON trees are walked to collect issues from field names,
  string values and large numbers. Each file is filed as safe or risky, and
  recommendations are derived from the issues.
- `diagnostic_report.py`: per-artist and per-track counters, distinct counts,
  stable top-N lists, playlist totals, listening peaks and an overall summary.
- `quick_summary.py`: the same counts and a top-5 artist list.

Layout, one module per file:

- `json.dfy` (`JsonValue`): the `Json` value with ordered dicts, and Python
  truthiness. It also has `dict.get`, item assignment, `len`, iteration,
  ASCII `lower`, the substring test, `str(int)` and `int(str)`. `int(str)`
  follows CPython over all of Unicode 15.0: it strips the ASCII whitespace
  `\t\n\v\f\r` and space and the non-ASCII characters `str.isspace`
  accepts, but not the ASCII separators U+001C-U+001F. It reads the decimal
  digits of every script (general category Nd), with underscores between
  digits, and refuses more than 4300 digits.
- `select.dfy` (`Selection`): an order-preserving filter-and-map, and in-place
  rewriting of a prefix.
- `tally.dfy` (`Tally`): `defaultdict(int)` counters in first-seen key order, a
  stable descending sort, `[:n]`, and `max` by value.
- `plays.dfy` (`Plays`): how the report scripts read play records and
  playlists, and the per-key counters over them.
- `merge.dfy`, `sanitize.dfy`, `privacy.dfy`, `diagnostic.dfy`,
  `quick_summary.dfy`: one module per script.

The classes `Merge.Merger`, `Sanitize.Sanitizer`, `Privacy.PrivacyFilter` and
`Diagnostic.DiagnosticReport` hold the state the scripts keep in
`merged_data`, `sanitization_stats`, `analysis_results` and `report`. Their
methods are proved against functions of the inputs, and the lemmas state what
those functions promise.

File contents are passed in as `Loaded` values: the parsed JSON, or
`Unreadable` with the message of the exception that opening or parsing raised.
What a method returns or leaves in its fields is what the script would print or
save. A crash the script does not catch is modelled in one of two ways:

- as a precondition, which is listed below;
- or, for `clean_streaming_data`, as an explicit failure result.

## Model

| member | source | states |
|---|---|---|
| JsonValue.Lookup | scripts/merge_data.py:100-102 | `d.get(key)` finds a value exactly when the key is present, and the value found is one stored under that key |
| JsonValue.SetField | scripts/merge_data.py:117 | after `d[key] = value` the key reads as the new value and every other key reads as before |
| JsonValue.SetFieldKeys | scripts/merge_data.py:140 | assigning to an existing key keeps the key order; a new key goes last |
| JsonValue.Iter | scripts/sanitize_data.py:233 | `for` over a value works exactly for lists, dicts and strings, and visits a list's items |
| JsonValue.Len | scripts/merge_data.py:112-114 | `len` works exactly for lists, dicts and strings, giving the number of items, keys or characters |
| JsonValue.Lower | scripts/sanitize_data.py:89 | lowercasing keeps the length and maps every character on its own |
| JsonValue.ContainsAt | scripts/sanitize_data.py:89 | the substring test holds exactly when the needle occurs at some position of the text |
| JsonValue.NatToString | scripts/privacy_filter.py:131 | `str(n)` of a non-negative integer is a non-empty run of decimal digits |
| JsonValue.IntToString | scripts/privacy_filter.py:168 | `str(n)` of any integer is non-empty |
| JsonValue.TrimLeftSuffix | scripts/merge_data.py:140 | the whitespace `int()` strips in front (ASCII `\t`-`\r` and space, and non-ASCII Unicode whitespace such as U+00A0 and U+3000; not U+001C-U+001F) is a prefix made only of that whitespace, and what is left starts with a character `int()` does not strip |
| JsonValue.TrimRightPrefix | scripts/merge_data.py:140 | the same for trailing whitespace, with the same set of characters |
| JsonValue.TrimLeftSpaces | scripts/merge_data.py:140 | stripping a run of whitespace in front of a text that starts with a non-space gives that text |
| JsonValue.TrimRightSpaces | scripts/merge_data.py:140 | the same for whitespace behind |
| JsonValue.DecimalValue | scripts/merge_data.py:140 | a decimal digit of any script has a value below 10 |
| JsonValue.AsciiDecimal | scripts/merge_data.py:140 | an ASCII digit is a decimal digit with its usual value |
| JsonValue.DecimalOfBlock | scripts/merge_data.py:140 | every character of a Unicode digit block is a decimal digit, worth its distance from the block's zero (so `int("١٠") == 10`) |
| JsonValue.BetweenBlocks | scripts/merge_data.py:140 | a character between two digit blocks is not a decimal digit |
| JsonValue.SpaceNotDecimal | scripts/merge_data.py:140 | no whitespace character is a decimal digit |
| JsonValue.ParseIntBlank | scripts/merge_data.py:140 | `int()` of an empty or all-whitespace string raises |
| JsonValue.ParseIntHasDigit | scripts/merge_data.py:140 | `int()` succeeds only on a string holding a decimal digit |
| JsonValue.ParseIntStrips | scripts/merge_data.py:140 | surrounding whitespace of the set `int()` strips does not change what `int()` gives (so `int("\u00a0500") == 500`); the 4300-digit limit is part of what is compared |
| JsonValue.SeparatorRejected | scripts/merge_data.py:140 | a string starting with one of U+001C-U+001F is refused by `int()` (so `int("\x1c500")` fails and the record is dropped), though `str.isspace` accepts those characters |
| JsonValue.ParseIntTooLong | scripts/merge_data.py:140 | a run of more than 4300 decimal digits is refused by `int()`, as CPython's integer string conversion limit does |
| JsonValue.ParseIntOfDecimals | scripts/merge_data.py:140 | `int()` of a run of at most 4300 decimal digits, of any script, is the value of those digits |
| JsonValue.ParseIntOfNat | scripts/merge_data.py:140 | `int(str(n)) == n` for every non-negative integer of at most 4300 digits |
| JsonValue.ParseIntNegative | scripts/merge_data.py:140 | `int("-" + digits)` is the negated value of at most 4300 digits |
| JsonValue.IntToStringParses | scripts/merge_data.py:140 | `int(str(i)) == i` for every integer of at most 4300 digits |
| JsonValue.IntOf | scripts/merge_data.py:140 | `int(v)` keeps an integer as it is, and raises for null, lists and dicts |
| JsonValue.BaseName | scripts/sanitize_data.py:107 | a path's file name holds no separator |
| Selection.Sift | scripts/merge_data.py:131-146 | a filtered list is never longer than its input |
| Selection.SiftIsSelection | scripts/merge_data.py:131-146 | a filter-and-map loop keeps exactly the elements that pass, in their original order (increasing positions), each mapped |
| Selection.SiftSnoc | scripts/merge_data.py:132-142 | one more loop turn appends the mapped element exactly when it passes |
| Selection.LeadingRun | scripts/sanitize_data.py:192-207 | the longest prefix whose elements all pass: everything before it passes and the element after it fails |
| Selection.Rewritten | scripts/merge_data.py:140 | rewriting the first `n` elements in place keeps the length |
| Selection.RewrittenAt | scripts/merge_data.py:140 | after rewriting the first `n` elements, each earlier element is its image and each later one is untouched |
| Selection.RewriteFixed | scripts/merge_data.py:143-144 | rewriting an element to itself changes nothing |
| Tally.BumpGet | scripts/diagnostic_report.py:127 | `counter[k] += w` raises `k` by `w` and leaves every other key's count alone |
| Tally.BumpSum | scripts/diagnostic_report.py:127 | a bump by `w` raises the sum of all counts by `w` |
| Tally.BumpKeys | scripts/diagnostic_report.py:127 | a bumped key keeps its place if present, and is appended otherwise |
| Tally.FoldSnoc | scripts/diagnostic_report.py:124-128 | one more turn of a counting loop is one more bump |
| Tally.FoldGet | scripts/diagnostic_report.py:124-128 | after a counting loop, each key's count is the total weight given to it |
| Tally.FoldSum | scripts/diagnostic_report.py:124-128 | after a counting loop, the counts add up to the total weight: every bump is counted once |
| Tally.FoldKeys | scripts/diagnostic_report.py:124-128 | a counter's keys are the distinct bumped keys in first-seen order |
| Tally.FirstSeenDistinct | scripts/diagnostic_report.py:135 | keeping first occurrences gives no repeats and the same members |
| Tally.FoldDistinct | scripts/diagnostic_report.py:135 | a counter never holds a key twice and holds exactly the bumped keys |
| Tally.FoldSize | scripts/diagnostic_report.py:135 | `len(counter)` is the number of distinct bumped keys |
| Tally.Insert | scripts/diagnostic_report.py:131 | one step of the stable descending sort: a permutation, still descending, one longer |
| Tally.SortDesc | scripts/diagnostic_report.py:131 | `sorted(..., reverse=True)` is a descending permutation of its input |
| Tally.SortDescStable | scripts/diagnostic_report.py:131 | the sort is stable: elements with equal keys keep their input order |
| Tally.Take | scripts/diagnostic_report.py:131 | `s[:n]` is the prefix of length min(n, len(s)) |
| Tally.TopNSpec | scripts/diagnostic_report.py:131-132 | a top-n list has min(n, len) entries in descending order, drawn from the input, and nothing it leaves out ranks above anything it keeps |
| Tally.TopNStable | scripts/quick_summary.py:49 | within one count, a top-n list keeps the first entries of the input in their order |
| Tally.MaxFirst | scripts/diagnostic_report.py:254 | `max(..., key=...)` is an element with the largest key, and no earlier element has that key |
| Tally.Peak | scripts/diagnostic_report.py:254-255 | the peak is the default for an empty counter, and otherwise the first entry with the largest count |
| Tally.FoldPeak | scripts/diagnostic_report.py:254-255 | the peak of a counting loop's result has the largest total of any key, and its count is its key's total |
| Tally.GetMissing | scripts/diagnostic_report.py:141 | a key that was never bumped reads as 0 |
| Plays.Canon | scripts/diagnostic_report.py:127 | a dict files `True` under the key of 1; every other name is its own key |
| Plays.Name | scripts/diagnostic_report.py:125-127 | a record gives a counter key exactly when its name is truthy, and the key is the name's dict key |
| Plays.NameKeys | scripts/diagnostic_report.py:91-92 | two truthy names share a key exactly when they are equal or are `True` and 1 |
| Plays.NameTruthy | scripts/diagnostic_report.py:125-126 | a name field gives a key exactly when it is present and truthy |
| Plays.StrOf | scripts/diagnostic_report.py:167 | `str()` of a string is the string, and of an integer of at most 4300 digits a text `int()` reads back as that integer |
| Plays.TrackKeyOf | scripts/diagnostic_report.py:167-168 | the track key exists exactly when both track and artist names are truthy, and is "track - artist" of their `str()` |
| Plays.Total | scripts/diagnostic_report.py:68 | a `sum` of weights none of which is negative is not negative |
| Plays.DistinctNames | scripts/diagnostic_report.py:91-92 | the set of names holds every truthy name and no "no key" |
| Plays.StreamsBy | scripts/diagnostic_report.py:121-127 | the stream counter holds each key once and has one entry per distinct truthy name |
| Plays.TimeBy | scripts/diagnostic_report.py:121-128 | the time counter holds each key once and has one entry per distinct truthy name |
| Plays.KeyedKeys | scripts/diagnostic_report.py:91-92 | the keys a counting loop bumps are exactly the distinct truthy names |
| Plays.CounterSize | scripts/diagnostic_report.py:135 | a counter holds one entry per distinct truthy name, so `len(artist_streams)` is the unique-artist count |
| Plays.KeyedCount | scripts/diagnostic_report.py:124-127 | the stream loop bumps once per record with a truthy key |
| Plays.StreamsSum | scripts/diagnostic_report.py:124-128 | per-key stream counts add up to the number of records whose key is truthy |
| Plays.CounterValues | scripts/diagnostic_report.py:124-128 | each key's stream count is its number of records, and its time is the sum of their msPlayed |
| Plays.SameKeyOrder | scripts/diagnostic_report.py:121-128 | the stream and time counters list the same keys in the same order |
| Plays.TotalAppend | scripts/diagnostic_report.py:68 | the msPlayed total of a split list is the sum of the parts' totals |
| Plays.TimeSum | scripts/diagnostic_report.py:124-128 | per-key times add up to the msPlayed of the records whose key is truthy |
| Plays.AllNamedTotal | scripts/diagnostic_report.py:68 | when every record has a truthy key, the per-key totals cover the whole listening time |
| Plays.MissingFollowersCountZero | scripts/quick_summary.py:53 | a playlist without numberOfFollowers adds 0 to the follower total |
| Plays.MissingMsCountsZero | scripts/diagnostic_report.py:68 | a record without msPlayed adds 0 to the time total |
| Merge.PlaylistsOf | scripts/merge_data.py:69-74 | a file contributes playlists only if it is a dict with a "playlists" key, and then its list is what it contributes |
| Merge.ListedRecordsAppend | scripts/merge_data.py:41-55 | the records and the file count of two batches of files are those of each batch, in order |
| Merge.ListFilesBound | scripts/merge_data.py:47-52 | the file count never exceeds the number of files, and reaches it only when every file held a list |
| Merge.ListedPlaylistsAppend | scripts/merge_data.py:63-77 | the playlists and the file count of two batches of files are those of each batch, in order |
| Merge.StoredName | scripts/merge_data.py:117 | the key an account file is stored under is its name without ".json" |
| Merge.Pick | scripts/merge_data.py:99-109 | the reduced view has exactly the listed keys, in order, each with `data.get(key)` (None when absent) |
| Merge.CountOf | scripts/merge_data.py:112-114 | `len(data.get(key, []))` is 0 for a missing key and fails exactly for a value without a length |
| Merge.SafeView | scripts/merge_data.py:97-115 | Identity is reduced to country, birthdate and gender. Userdata is reduced to username, email and created. The library is reduced to its three list lengths. The view fails exactly where `data.get` or `len` raises |
| Merge.View | scripts/merge_data.py:89-95 | a view exists exactly when the file exists, parses and its reduction succeeds |
| Merge.HasRequired | scripts/merge_data.py:133-136 | the field test: a dict with truthy trackName, artistName, endTime and msPlayed; NormalisedClean and CleanedRecords state what the kept records then hold |
| Merge.Kept | scripts/merge_data.py:133-143 | a record is kept when it passes the field test and its play time converts to an integer above 0; CleanedIsSelection and KeptSnoc state it for the whole loop |
| Merge.Converted | scripts/merge_data.py:133-140 | the conversion is tried only on a record that passes the field test, and keeps an integer play time as it is; ParseIntOfDecimals and ParseIntStrips state what it does with a string |
| Merge.Normalised | scripts/merge_data.py:140 | the in-place conversion keeps a dict a dict, and leaves the record alone when the conversion is not made |
| Merge.NormalisedFields | scripts/merge_data.py:140 | the conversion keeps the key order, changes only msPlayed, and stores the converted integer |
| Merge.Cleaned | scripts/merge_data.py:131-146 | the cleaned list is never longer than the input |
| Merge.FirstNonDict | scripts/merge_data.py:132-133 | the first record that is not a dict: everything before it is a dict |
| Merge.FirstNonDictAt | scripts/merge_data.py:132-133 | a non-dict after a run of dicts is the first one |
| Merge.NormalisedClean | scripts/merge_data.py:133-142 | a kept record, once converted, has truthy track, artist, end time and msPlayed, with msPlayed an integer above 0 |
| Merge.CleanedRecords | scripts/merge_data.py:133-142 | every record the cleaning keeps has the four required fields truthy and an integer msPlayed above 0 |
| Merge.CleanedIsSelection | scripts/merge_data.py:131-146 | the cleaned list is the converted form of exactly the records that pass, in their input order |
| Merge.KeptSnoc | scripts/merge_data.py:139-144 | a record whose conversion fails or gives 0 or less is dropped, and the loop goes on to the next one |
| Merge.Merger.constructor | scripts/merge_data.py:16-27 | the merged data starts empty, with both counters at 0 |
| Merge.Merger.MergeStreamingFile | scripts/merge_data.py:44-52 | a list-shaped file is appended whole and counted; anything else changes nothing |
| Merge.Merger.MergeStreamingHistory | scripts/merge_data.py:29-55 | the history grows by the records of exactly the list-shaped files, in file order, and the count by their number |
| Merge.Merger.MergePlaylistsFile | scripts/merge_data.py:66-77 | a dict with a "playlists" key has that value appended and is counted; anything else changes nothing |
| Merge.Merger.MergePlaylists | scripts/merge_data.py:57-77 | the playlists grow by those of exactly the contributing files, in file order, and the count by their number |
| Merge.Merger.MergeUserFile | scripts/merge_data.py:89-122 | a readable account file's view is stored under its stem and counted; no other key of user_data changes |
| Merge.Merger.MergeUserData | scripts/merge_data.py:79-122 | each of Identity, Userdata and YourLibrary holds its new view when its file gave one, and its old value otherwise. Other keys are unchanged, and the count rises by the number of views stored |
| Merge.Merger.CleanStreamingData | scripts/merge_data.py:124-150 | if every record is a dict, the history becomes the cleaned list and total_streams its length. Otherwise the loop stops at the first non-dict: the records before it keep their in-place conversion, and nothing else changes |
| Sanitize.Sensitive | scripts/sanitize_data.py:89 | a key is sensitive when one of the listed field names occurs in it, in any case; SanitizedDict and SanitizedHasNoSensitiveKeys state that exactly these keys are dropped |
| Sanitize.NoMatchNoChange | scripts/sanitize_data.py:72-79 | no redaction is counted exactly when no pattern matches at its turn, and then the text is unchanged |
| Sanitize.Sanitized | scripts/sanitize_data.py:83-103 | strings are redacted, lists keep their length, dicts never grow, and every other value is returned unchanged |
| Sanitize.SanitizedFields | scripts/sanitize_data.py:86-94 | a sanitised dict has no more keys than the original |
| Sanitize.SanitizedItems | scripts/sanitize_data.py:96-97 | a sanitised list has the original's length |
| Sanitize.SanitizedDict | scripts/sanitize_data.py:86-94 | a key is dropped exactly when it is sensitive, the kept keys stay in order, and each kept value is sanitised |
| Sanitize.SanitizedList | scripts/sanitize_data.py:96-97 | a list is sanitised element by element |
| Sanitize.SanitizedHasNoSensitiveKeys | scripts/sanitize_data.py:83-103 | no key at any depth of the output is sensitive |
| Sanitize.ShouldSkipFile | scripts/sanitize_data.py:105-126 | a path mentioning "technical" or "log", or a file with one of the five sensitive names, is skipped; SkipSensitiveName and SkipIgnoresCase state its promises |
| Sanitize.BaseNameJoin | scripts/sanitize_data.py:107 | the file name of `dir/name` is `name` |
| Sanitize.SkipSensitiveName | scripts/sanitize_data.py:115-124 | a file with one of the five sensitive names, in any case, is skipped wherever it lies |
| Sanitize.LowerIdempotent | scripts/sanitize_data.py:107-108 | lowercasing twice is lowercasing once |
| Sanitize.BaseNameLower | scripts/sanitize_data.py:107-108 | the file name of the lowercased path is the lowercased file name |
| Sanitize.SkipIgnoresCase | scripts/sanitize_data.py:105-126 | the skip decision depends only on the lowercased path |
| Sanitize.SafeEntry | scripts/sanitize_data.py:194-200 | the projection of a streaming record is a dict exactly when the record is one |
| Sanitize.SafeEntryKeys | scripts/sanitize_data.py:194-200 | a safe record has exactly trackName, artistName, albumName, endTime and msPlayed, in that order |
| Sanitize.SafeEntriesShape | scripts/sanitize_data.py:192-207 | every safe record has the five keys and truthy track, artist, end time and play time (the album may be empty), and is the projection of an input record |
| Sanitize.SafeStreamingAppend | scripts/sanitize_data.py:186-210 | the safe records of two batches of files are those of each batch, in order |
| Sanitize.SafeItem | scripts/sanitize_data.py:245-250 | a safe item exists exactly when `item.get` and the track's `.get` do not raise |
| Sanitize.SafeItemKeys | scripts/sanitize_data.py:245-250 | a safe item has exactly trackName, artistName, albumName and addedAt, in that order |
| Sanitize.CollectAll | scripts/sanitize_data.py:244-251 | collecting succeeds exactly when every element succeeds, giving one result per element, in order |
| Sanitize.SafeItems | scripts/sanitize_data.py:243-251 | a playlist's safe items are one per source item, in order, and fail exactly when one item raises |
| Sanitize.SafePlaylistShape | scripts/sanitize_data.py:235-251 | a safe playlist has name, description, numberOfFollowers and items, with as many items as the source (none without "items") |
| Sanitize.SafePlaylistsOfRun | scripts/sanitize_data.py:233-253 | the playlists before the first one that raises are kept, in order, each as its safe copy |
| Sanitize.AllPositions | scripts/sanitize_data.py:233-253 | when every element passes, all positions are kept |
| Sanitize.Sanitizer.constructor | scripts/sanitize_data.py:19-27 | all three counters start at 0 |
| Sanitize.Sanitizer.SanitizeString | scripts/sanitize_data.py:64-81 | a non-string comes back unchanged. A string comes back redacted, and the total rises by the matches found |
| Sanitize.Sanitizer.SanitizeObject | scripts/sanitize_data.py:83-103 | returns the sanitised copy, and the total rises by the redactions inside the kept values |
| Sanitize.Sanitizer.SanitizeFields | scripts/sanitize_data.py:86-94 | the dict case of the rewrite, with its redaction count |
| Sanitize.Sanitizer.SanitizeItems | scripts/sanitize_data.py:96-97 | the list case of the rewrite, with its redaction count |
| Sanitize.Sanitizer.SanitizeFile | scripts/sanitize_data.py:128-155 | a readable file is counted as processed before the skip test, and gets a sanitised copy unless it is skipped or its content is `null` (the script then returns nothing and saves nothing). It counts as sanitised when the running total is above 0. files_sanitized never exceeds files_processed |
| Sanitize.FileOutput | scripts/sanitize_data.py:128-155 | a file yields a copy exactly when it is readable, not skipped and not `null`, and the copy has no sensitive key |
| Sanitize.EligibleCount | scripts/sanitize_data.py:128-155 | no more files are sanitised than are readable |
| Sanitize.SanitizedCount | scripts/sanitize_data.py:146-148 | files_sanitized never rises by more than the number of sanitised files |
| Sanitize.SanitizedAfterRedaction | scripts/sanitize_data.py:146-148 | once the running redaction total is above 0, every later sanitised file is counted, with or without redactions of its own |
| Sanitize.SanitizedWithoutRedaction | scripts/sanitize_data.py:146-148 | while no redaction has been made, no file is counted as sanitised |
| Sanitize.Sanitizer.SanitizeAllFiles | scripts/sanitize_data.py:265-287 | the outputs are each file's copy or nothing (nothing for an unreadable, skipped or `null` file), in file order. The processed count rises by the readable files, the redaction total by the redactions in the sanitised files, and files_sanitized by the sanitised files that find the running total above 0 |
| Sanitize.Sanitizer.CreateSafeStreamingHistory | scripts/sanitize_data.py:175-210 | the safe history is the safe records of the list-shaped files, in order |
| Sanitize.Sanitizer.CollectSafeEntries | scripts/sanitize_data.py:192-207 | the loop over one file's records builds that file's safe records |
| Sanitize.Sanitizer.MakeSafePlaylist | scripts/sanitize_data.py:235-251 | the item loop builds the safe playlist, or fails where the script raises |
| Sanitize.Sanitizer.CollectSafePlaylists | scripts/sanitize_data.py:233-253 | the playlist loop builds one file's safe playlists |
| Sanitize.Sanitizer.CreateSafePlaylists | scripts/sanitize_data.py:219-256 | the safe playlists are those of the contributing files, in order |
| Privacy.SpotifyRules | scripts/privacy_filter.py:20-59 | the scans use the seven patterns and the three risk levels in the script's order |
| Privacy.Text | scripts/privacy_filter.py:84 | an issue's message names the pattern it is about, and the field, entry or error it reports |
| Privacy.NamePatternIssues | scripts/privacy_filter.py:148-150 | a field name gets one pattern issue for each pattern that matches it, and no other |
| Privacy.LevelIssuesIff | scripts/privacy_filter.py:143-145 | one level's list raises an issue exactly for each entry whose lowercase form occurs in the lowercased name |
| Privacy.RiskIssuesIff | scripts/privacy_filter.py:142-145 | over all levels, an issue is raised exactly for each (level, entry) pair whose lowercase entry occurs in the lowercased name |
| Privacy.FieldMatchIff | scripts/privacy_filter.py:136-152 | a name gets "matches level pattern: entry" exactly for each such pair, so one key can yield several issues |
| Privacy.ValuePatternIssues | scripts/privacy_filter.py:160-163 | a string gets exactly one issue per matching pattern, carrying the matches |
| Privacy.ValueIssues | scripts/privacy_filter.py:154-170 | a string is scanned with every pattern. A number raises one issue iff it exceeds 1000000000000. Every other value raises none |
| Privacy.PrimitiveItemsSilent | scripts/privacy_filter.py:128-132 | a list whose items are not dicts or lists reports nothing |
| Privacy.DictIssuesAppend | scripts/privacy_filter.py:113-126 | a dict's issues are those of its keys in key order |
| Privacy.KeyIssuesInOrder | scripts/privacy_filter.py:114-126 | each key's issues form one block: name issues, then value issues, then nested issues |
| Privacy.CheckFieldName | scripts/privacy_filter.py:136-152 | the name check's loops compute the issues stated by the name functions |
| Privacy.ScanValue | scripts/privacy_filter.py:158-163 | the string scan's loop computes the pattern issues |
| Privacy.CheckFieldValue | scripts/privacy_filter.py:154-170 | the value check computes the value issues |
| Privacy.AnalyzeStructure | scripts/privacy_filter.py:109-134 | the recursive walk computes the structure issues |
| Privacy.AnalyzeEntry | scripts/privacy_filter.py:116-126 | one key's issues, in their fixed order |
| Privacy.AnalyzeDict | scripts/privacy_filter.py:113-126 | the dict loop of the walk |
| Privacy.AnalyzeList | scripts/privacy_filter.py:128-132 | the list loop of the walk, which enters only dicts and lists |
| Privacy.PathIssues | scripts/privacy_filter.py:82-85 | the path issues are exactly the patterns that match the path, each with its matches: every issue names a listed pattern that matched, and every listed pattern that matches has its issue |
| Privacy.ScanPath | scripts/privacy_filter.py:82-85 | the path loop computes the path issues |
| Privacy.Category | scripts/privacy_filter.py:214-223 | every issue falls in exactly one of the five categories |
| Privacy.CategoryBumps | scripts/privacy_filter.py:212-223 | the grouping loop makes one bump per issue |
| Privacy.CountLines | scripts/privacy_filter.py:225-226 | one "type: count" line per category, in first-seen order |
| Privacy.Advice | scripts/privacy_filter.py:228-239 | no file with issues gives no advice, and advice never says all is safe |
| Privacy.PatternAdvice | scripts/privacy_filter.py:228-239 | a file with a pattern issue for IP addresses, e-mail addresses or device identifiers gets the matching advice |
| Privacy.Recommendations | scripts/privacy_filter.py:195-241 | the all-safe line appears exactly when no file is risky; the first line is the all-safe line or the risky-file count |
| Privacy.AllSafeIff | scripts/privacy_filter.py:205-206 | the all-safe line appears exactly when no file is risky, and then it is the only recommendation |
| Privacy.BumpsWeight | scripts/privacy_filter.py:211-223 | the bumps give each category the number of issues classified under it, and one per issue in all |
| Privacy.CategoryCounts | scripts/privacy_filter.py:211-223 | each category's count is the number of issues the ip > email > device > uri > other precedence puts in it |
| Privacy.CategoryCountsSum | scripts/privacy_filter.py:211-223 | the category counts add up to the total number of issues |
| Privacy.BumpCategories | scripts/privacy_filter.py:213-223 | the inner loop bumps the category of each issue of one file |
| Privacy.IssueTypeLines | scripts/privacy_filter.py:225-226 | the line loop gives one line per counter entry |
| Privacy.CountIssueTypes | scripts/privacy_filter.py:211-223 | the grouping loop builds the issue-type counter over all risky files |
| Privacy.PrivacyFilter.constructor | scripts/privacy_filter.py:18-68 | the analysis starts empty, with the script's rules |
| Privacy.PrivacyFilter.AnalyzeFile | scripts/privacy_filter.py:70-107 | a readable file lands in exactly one of safe_files or risky_files, with files_analyzed + 1; its issues are the path issues then the walk's. An unreadable file is risky with one read-error issue and is not counted |
| Privacy.PrivacyFilter.GenerateRecommendations | scripts/privacy_filter.py:195-241 | the recommendations are the all-safe line or the risky count with per-category lines, then the specific advice |
| Diagnostic.Stamps | scripts/diagnostic_report.py:72-80 | no more end times than records |
| Diagnostic.Earliest | scripts/diagnostic_report.py:83 | `min(dates)` is one of the dates and no date is earlier |
| Diagnostic.Latest | scripts/diagnostic_report.py:84 | `max(dates)` is one of the dates and no date is later |
| Diagnostic.RangeDays | scripts/diagnostic_report.py:82-88 | 0 without dates; otherwise the whole days between the earliest and the latest date |
| Diagnostic.StreamingOf | scripts/diagnostic_report.py:57-110 | one stream per record; start and end dates exactly when some end time parses, with start <= end; a range of 0 or more days; the unique counts are the sizes of the artist, track and album counters |
| Diagnostic.Percent | scripts/diagnostic_report.py:150 | 0 for a zero whole, and part * 100 / whole otherwise |
| Diagnostic.Average | scripts/diagnostic_report.py:178 | 0 for a zero count, and total / count otherwise |
| Diagnostic.CountAtLeast | scripts/diagnostic_report.py:136 | the number of counts at or above a threshold is at most the number of keys |
| Diagnostic.AtLeastOne | scripts/diagnostic_report.py:136 | a count at or above the threshold is counted |
| Diagnostic.TopTenPercent | scripts/diagnostic_report.py:136 | 0 without artists, otherwise between 1 and the number of artists |
| Diagnostic.Shorten | scripts/diagnostic_report.py:223 | a description longer than 100 characters becomes its first 100 characters plus "..."; a shorter one is unchanged |
| Diagnostic.Marks | scripts/diagnostic_report.py:242-249 | one bump of 1 per parsed end time, under its hour, weekday or month |
| Diagnostic.SummaryOf | scripts/diagnostic_report.py:296-315 | the status is safe iff safe_files > risky_files. A missing section reads as zeros. Streams per day times max(days, 1) gives back the stream count |
| Diagnostic.PerDay | scripts/diagnostic_report.py:313 | the divisor max(days, 1) is never 0 |
| Diagnostic.UniqueCountsAgree | scripts/diagnostic_report.py:91-92 | the unique artist and track counts equal the sizes of the artist and track counters |
| Diagnostic.TotalOne | scripts/diagnostic_report.py:67 | counting 1 per record gives the number of records |
| Diagnostic.ArtistsCoverAll | scripts/diagnostic_report.py:124-128 | when every record names an artist, the artist counters account for every stream and every millisecond |
| Diagnostic.EntryValue | scripts/diagnostic_report.py:141 | an entry of a counter is what the counter holds for its key |
| Diagnostic.ByStreamsLength | scripts/diagnostic_report.py:131 | a top-by-streams list has min(n, number of keys) rows |
| Diagnostic.ByStreamsOrder | scripts/diagnostic_report.py:131 | a top-by-streams list is in descending stream order |
| Diagnostic.ByStreamsValues | scripts/diagnostic_report.py:140-143 | each row carries its key's record count and total msPlayed |
| Diagnostic.ByTimeLength | scripts/diagnostic_report.py:132 | a top-by-time list has min(n, number of keys) rows |
| Diagnostic.ByTimeOrder | scripts/diagnostic_report.py:132 | a top-by-time list is in descending order of time |
| Diagnostic.ByTimeValues | scripts/diagnostic_report.py:144-147 | each row carries its key's record count and total msPlayed |
| Diagnostic.PercentBounds | scripts/diagnostic_report.py:150 | a share of a whole is between 0 and 100 |
| Diagnostic.ConcentrationBounds | scripts/diagnostic_report.py:150 | the concentration ratio is 0 without artists and always between 0 and 100 |
| Diagnostic.ArtistAnalysisOf | scripts/diagnostic_report.py:112-152 | one artist per distinct truthy name; the top-ten-percent count is 0 without artists and otherwise between 1 and the number of artists; the concentration is a percentage |
| Diagnostic.TrackAnalysisOf | scripts/diagnostic_report.py:154-191 | one track per distinct track key; the average is 0 without tracks and otherwise the keyed records over the tracks |
| Diagnostic.TrackAverage | scripts/diagnostic_report.py:178 | the average is 0 without tracks, and otherwise the records naming both track and artist spread over the tracks |
| Diagnostic.LineOf | scripts/diagnostic_report.py:219-224 | a line's follower value is what the follower total adds for its playlist, and its description has at most 103 characters |
| Diagnostic.PlaylistAnalysisOf | scripts/diagnostic_report.py:193-227 | every playlist is counted, the track total is not negative, and min(10, n) playlists are listed |
| Diagnostic.TopPlaylistsLength | scripts/diagnostic_report.py:211-226 | at most 10 top playlists (min(10, n)), and each description has at most 103 characters |
| Diagnostic.TopPlaylistsOrder | scripts/diagnostic_report.py:211 | the top playlists are in descending follower order |
| Diagnostic.TemporalOf | scripts/diagnostic_report.py:229-267 | the hourly, daily and monthly counters hold the number of end times in each hour, weekday and month; without end times the peaks are the defaults |
| Diagnostic.MarksCount | scripts/diagnostic_report.py:242-251 | a counter of end times holds, for every key, the number of end times under it |
| Diagnostic.MarksWeight | scripts/diagnostic_report.py:247-249 | the bumps give each hour (weekday, month) the number of end times that fall in it |
| Diagnostic.PeakListening | scripts/diagnostic_report.py:254-255 | the peaks are (0, 0) and ("Unknown", 0) without dates; otherwise each is an hour (weekday) with the most end times, paired with that number |
| Diagnostic.MarksPeak | scripts/diagnostic_report.py:254-255 | the peak of a counter of marks is the default when empty, otherwise a most frequent key with its count |
| Diagnostic.CollectStamps | scripts/diagnostic_report.py:72-80 | the date loop collects the parsed end times, skipping failures |
| Diagnostic.CountPlays | scripts/diagnostic_report.py:121-128 | the counting loop builds the stream and time counters |
| Diagnostic.StampsSnoc | scripts/diagnostic_report.py:73-80 | one more record adds its end time exactly when it parses |
| Diagnostic.MarkStep | scripts/diagnostic_report.py:247-249 | one more end time bumps its key by one |
| Diagnostic.CountedStep | scripts/diagnostic_report.py:242-251 | one more end time keeps the three counters in step |
| Diagnostic.CountTemporal | scripts/diagnostic_report.py:238-251 | the temporal loop builds the hour, weekday and month counters of the parsed end times |
| Diagnostic.DiagnosticReport.constructor | scripts/diagnostic_report.py:16-27 | every section starts unset |
| Diagnostic.DiagnosticReport.AnalyzeStreamingData | scripts/diagnostic_report.py:57-110 | an empty history leaves the section unset; otherwise it holds the counts, total time, date range and unique counts |
| Diagnostic.DiagnosticReport.AnalyzeArtists | scripts/diagnostic_report.py:112-152 | an empty history leaves the section unset; otherwise it holds the artist analysis |
| Diagnostic.DiagnosticReport.AnalyzeTracks | scripts/diagnostic_report.py:154-191 | an empty history leaves the section unset; otherwise it holds the track analysis |
| Diagnostic.DiagnosticReport.AnalyzePlaylists | scripts/diagnostic_report.py:193-227 | no playlists leaves the section unset; otherwise it holds the playlist analysis |
| Diagnostic.DiagnosticReport.AnalyzeTemporalPatterns | scripts/diagnostic_report.py:229-267 | an empty history leaves the section unset; otherwise it holds the counters and peaks |
| Diagnostic.DiagnosticReport.LoadPrivacySummary | scripts/diagnostic_report.py:273-283 | a privacy report sets the privacy counts; no report leaves them as they were |
| Diagnostic.DiagnosticReport.GenerateSummary | scripts/diagnostic_report.py:296-315 | the summary is computed from the current sections |
| QuickSummary.Section | scripts/quick_summary.py:29-30 | a missing section has no records |
| QuickSummary.OverviewOf | scripts/quick_summary.py:24-53 | there is no overview exactly when there is no merged data or it is falsy |
| QuickSummary.PrivacyStatusOf | scripts/quick_summary.py:70-86 | no report gives no privacy lines, and an unreadable report gives the could-not-be-read line. A count line carries the lengths of the report's file lists |
| QuickSummary.Status | scripts/quick_summary.py:84 | the status is "Safe" iff safe_files > risky_files, and "Needs Review" otherwise |
| QuickSummary.CountArtists | scripts/quick_summary.py:43-47 | the loop counts records per truthy artist name, in first-seen order |
| QuickSummary.PrintSummary | scripts/quick_summary.py:19-94 | prints the overview, and the privacy lines only when there is an overview |
| QuickSummary.TopFive | scripts/quick_summary.py:49 | min(5, number of artists) entries, most streams first, ties in first-seen order, each with its artist's record count |
| QuickSummary.ArtistStreamsSum | scripts/quick_summary.py:39-47 | the artist counts add up to the records with a truthy artist, and there are as many as unique artists |

## Left out

- File and console I/O is not modelled, and neither are `main`/`run`. This covers `glob`, `open`, `json.load`/`json.dump`, `Path`, `mkdir`, `stat`, `print` and `argparse`. File contents are parameters, and the outputs are returned values or fields. `save_merged_data`, `save_sanitized_file`, `save_sanitization_report`, `save_analysis_report`, `save_report`, both `print_summary` methods of the classes, `load_data`, `load_merged_data` and `analyze_all_files` are plumbing around the modelled operations. `run` only calls the modelled steps in order.
- Regular expressions are not modelled. The seven patterns stand behind functions passed in: `Redactor` for `re.findall`/`re.sub` in the sanitiser, and `Finder` for `re.findall` in the privacy filter, which also decides `re.search`. Every property holds for any such function. `re.findall` results with groups are taken as already rendered.
- Dates are not modelled. `datetime.fromisoformat`, `strftime` and the time zone handling are a `Clock` function passed in. Comparing naive with aware datetimes raises TypeError in `min`/`max`; that crash is not modelled.
- Floating point is not modelled: the `Json` type has no float values, so a JSON file holding a float anywhere is outside the model. This includes the float case of `isinstance(value, (int, float))` in the privacy filter's value check (scripts/privacy_filter.py:165-168); only its int case is modelled. Ratios are exact `real` quotients without `round(…, 2)`. The hour and day conversions of milliseconds are left out; totals stay in milliseconds. Float msPlayed and follower values are outside the record preconditions.
- Diagnostic.TopTenPercent: `int(len * 0.1)` is taken as `len // 10`, the exact value of the product; the rounding of the double product is not modelled.
- JsonValue.Lower: `.lower()` is modelled over ASCII only; other letters are left as they are.
- Privacy.Mentions reads an issue list as the concatenation of its messages. `str(issues)` also escapes control characters, and such an escape (`\x1e` before "mail_addresses") can spell a pattern name the messages do not contain; that case is not modelled.
- Diagnostic.DiagnosticReport: the analyses require play records that are dicts, with msPlayed absent, an integer or a boolean, and truthy names that are strings, integers or booleans. A record that is not a dict, a string msPlayed, or a truthy list or dict as artist or album name makes the script raise (`.get`, `sum`, hashing), and that crash is not modelled. A truthy list or dict as trackName does not raise: the f-string formats it. It is excluded because `str()` of lists and dicts is not modelled. Playlists must be dicts whose follower count is absent, an integer or a boolean and whose items have a length; anything else raises. The description must be absent, falsy or a string. A list or dict description does not always raise, but it is excluded as well.
- QuickSummary.OverviewOf: truthy merged data must be a dict whose sections are lists of records as above (the album name is not read). Other shapes make the script raise, except a truthy list or dict trackName, which is excluded as above.
- QuickSummary.PrintSummary: needs the same merged data as QuickSummary.OverviewOf, for the same reasons.
- Plays.Canon: when an artist named `true` is counted before one named `1`, Python keeps the key object `True` and prints it as "True"; the model files both under 1 and shows the key as 1. The counts are the same.
- JsonValue.IntToString: `str()` of an integer with more than 4300 digits raises ValueError in CPython 3.11 and later; the model writes the digits anyway. Integers read by `json.load` never have more digits, since `json.load` raises on them first.
- Plays.StrOf: the round trip through `int()` is stated only for integers of at most 4300 digits, since `int()` refuses longer strings.
- JsonValue.DecimalValue: the digit and whitespace tables are those of Unicode 15.0; another Python version may use a different Unicode version.
- Diagnostic.DiagnosticReport.LoadPrivacySummary takes the privacy report's three counts as given. Reading them from the JSON, its recommendations list and the sanitisation-report part are not modelled.
- QuickSummary.PrivacyStatusOf: when formatting a count fails, the lines printed before the failure are not modelled; the result is the could-not-be-read line. The file-size line is left out.
- Merge: `merged_at` and `timestamp` (the current time) are left out. Duplicate keys in a JSON file are not modelled: a dict is taken as it was parsed.
- JsonValue.BaseName: a path ending in `/` gives an empty name, where `Path.name` drops the trailing separator first. The scripts only pass paths globbed from `*.json`, which never end in `/`.
- setup.py is not part of this model: it runs other scripts and writes sample data.
