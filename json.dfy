/**
 * JSON values as `json.load` hands them to the scripts, and the handful of
 * Python built-ins the scripts apply to them: truthiness, `dict.get`,
 * `dict[key] = value`, iteration and `len`, ASCII `str.lower`, the substring
 * test `a in b`, `str(n)` and `int(s)`.
 */
module JsonValue {

  datatype Option<T> = None | Some(value: T)

  /** What reading a file with `json.load` gives: its value, or the message of the exception it raised. */
  datatype Loaded = Unreadable(reason: string) | Parsed(data: Json)

  /** A JSON value. An object keeps its keys in insertion order, as a Python dict does. */
  datatype Json =
    | Null
    | Bool(b: bool)
    | Int(i: int)
    | Str(s: string)
    | Arr(items: seq<Json>)
    | Obj(fields: seq<(string, Json)>)

  /** Python truthiness: None, False, 0, "", [] and {} are false. */
  predicate Truthy(j: Json) {
    match j
    case Null => false
    case Bool(b) => b
    case Int(i) => i != 0
    case Str(s) => s != ""
    case Arr(xs) => xs != []
    case Obj(fs) => fs != []
  }

  /** The keys of a dict, or the first components of any list of pairs, in order. */
  function KeysOf<K, V>(fs: seq<(K, V)>): (ks: seq<K>)
    ensures |ks| == |fs|
    ensures forall i :: 0 <= i < |fs| ==> ks[i] == fs[i].0
  {
    if fs == [] then [] else [fs[0].0] + KeysOf(fs[1..])
  }

  /** `key in d` for a dict `d`. */
  predicate HasKey(fs: seq<(string, Json)>, key: string) {
    key in KeysOf(fs)
  }

  /** `d.get(key)`: the value stored under `key`, if any. */
  function Lookup(fs: seq<(string, Json)>, key: string): (r: Option<Json>)
    ensures r.Some? <==> HasKey(fs, key)
    ensures r.Some? ==> exists i :: 0 <= i < |fs| && fs[i] == (key, r.value)
  {
    if fs == [] then None
    else if fs[0].0 == key then Some(fs[0].1)
    else
      var r := Lookup(fs[1..], key);
      assert forall i :: 0 < i < |fs| ==> fs[i] == fs[1..][i - 1];
      r
  }

  /** `d.get(key, default)`. */
  function GetOr(fs: seq<(string, Json)>, key: string, default: Json): Json {
    match Lookup(fs, key)
    case Some(v) => v
    case None => default
  }

  /** `d[key] = value`: the key then reads as the value and every other key reads as before. */
  function SetField(fs: seq<(string, Json)>, key: string, value: Json): (r: seq<(string, Json)>)
    ensures Lookup(r, key) == Some(value)
    ensures forall k :: k != key ==> Lookup(r, k) == Lookup(fs, k)
  {
    if fs == [] then [(key, value)]
    else if fs[0].0 == key then [(key, value)] + fs[1..]
    else
      var rest := SetField(fs[1..], key, value);
      assert ([fs[0]] + rest)[1..] == rest;
      [fs[0]] + rest
  }

  /** Concatenation regroups freely; stated once so that long proofs need not rediscover it. */
  lemma ConcatAssoc<T>(a: seq<T>, b: seq<T>, c: seq<T>)
    ensures a + (b + c) == (a + b) + c
  {
  }

  lemma KeysCons(h: (string, Json), t: seq<(string, Json)>)
    ensures KeysOf([h] + t) == [h.0] + KeysOf(t)
  {
    assert ([h] + t)[1..] == t;
  }

  /** The keys of a four-field dict display. */
  lemma KeysOf4(a: (string, Json), b: (string, Json), c: (string, Json), d: (string, Json))
    ensures KeysOf([a, b, c, d]) == [a.0, b.0, c.0, d.0]
  {
    var ks := KeysOf([a, b, c, d]);
    assert ks[0] == a.0 && ks[1] == b.0 && ks[2] == c.0 && ks[3] == d.0;
  }

  /** The keys of a five-field dict display. */
  lemma KeysOf5(a: (string, Json), b: (string, Json), c: (string, Json), d: (string, Json), e: (string, Json))
    ensures KeysOf([a, b, c, d, e]) == [a.0, b.0, c.0, d.0, e.0]
  {
    var ks := KeysOf([a, b, c, d, e]);
    assert ks[0] == a.0 && ks[1] == b.0 && ks[2] == c.0 && ks[3] == d.0 && ks[4] == e.0;
  }

  /** An existing key keeps its position, a new key goes last. */
  lemma {:induction false} SetFieldKeys(fs: seq<(string, Json)>, key: string, value: Json)
    ensures KeysOf(SetField(fs, key, value)) == if HasKey(fs, key) then KeysOf(fs) else KeysOf(fs) + [key]
  {
    if fs != [] && fs[0].0 != key {
      var rest := SetField(fs[1..], key, value);
      var tail := KeysOf(fs[1..]);
      SetFieldKeys(fs[1..], key, value);
      assert SetField(fs, key, value) == [fs[0]] + rest;
      KeysCons(fs[0], rest);
      assert KeysOf(fs) == [fs[0].0] + tail;
      assert HasKey(fs, key) <==> key in tail;
      ConcatAssoc([fs[0].0], tail, [key]);
    } else if fs != [] {
      assert ([(key, value)] + fs[1..])[1..] == fs[1..];
    }
  }

  /** What `for x in j` visits: a list's items, a dict's keys, a string's characters; `None` for a TypeError. */
  function Iter(j: Json): (r: Option<seq<Json>>)
    ensures r.Some? <==> (j.Arr? || j.Obj? || j.Str?)
    ensures j.Arr? ==> r == Some(j.items)
  {
    match j
    case Arr(xs) => Some(xs)
    case Obj(fs) => Some(seq(|fs|, i requires 0 <= i < |fs| => Str(fs[i].0)))
    case Str(s) => Some(seq(|s|, i requires 0 <= i < |s| => Str([s[i]])))
    case _ => None
  }

  /** `len(j)`, `None` for a TypeError. */
  function Len(j: Json): (r: Option<nat>)
    ensures r.Some? <==> (j.Arr? || j.Obj? || j.Str?)
    ensures j.Arr? ==> r == Some(|j.items|)
    ensures j.Obj? ==> r == Some(|j.fields|)
    ensures j.Str? ==> r == Some(|j.s|)
  {
    match Iter(j)
    case Some(xs) => Some(|xs|)
    case None => None
  }

  /** Every element is a dict. */
  predicate AllDicts(es: seq<Json>) {
    forall i :: 0 <= i < |es| ==> es[i].Obj?
  }

  // ---------------------------------------------------------------- strings

  function LowerChar(c: char): char {
    if 'A' <= c <= 'Z' then (c as int + 32) as char else c
  }

  /** `s.lower()`, over ASCII letters. */
  function Lower(s: string): (r: string)
    ensures |r| == |s|
    ensures forall i :: 0 <= i < |s| ==> r[i] == LowerChar(s[i])
  {
    if s == [] then [] else [LowerChar(s[0])] + Lower(s[1..])
  }

  predicate IsPrefix(p: string, s: string) {
    |p| <= |s| && s[..|p|] == p
  }

  /** `needle` occurs in `hay` starting at index `i`. */
  predicate OccursAt(hay: string, needle: string, i: int) {
    0 <= i && i + |needle| <= |hay| && hay[i..i + |needle|] == needle
  }

  /** `needle in hay` for two strings. */
  predicate Contains(hay: string, needle: string)
    decreases |hay|
  {
    IsPrefix(needle, hay) || (|hay| > 0 && Contains(hay[1..], needle))
  }

  /** The substring test `needle in hay` holds exactly when `needle` occurs at some position of `hay`. */
  lemma {:induction false} ContainsAt(hay: string, needle: string)
    ensures Contains(hay, needle) <==> exists i :: OccursAt(hay, needle, i)
    decreases |hay|
  {
    if IsPrefix(needle, hay) {
      assert OccursAt(hay, needle, 0);
    } else if |hay| > 0 {
      ContainsAt(hay[1..], needle);
      if Contains(hay[1..], needle) {
        var j :| OccursAt(hay[1..], needle, j);
        assert hay[1..][j..j + |needle|] == hay[j + 1..j + 1 + |needle|];
        assert OccursAt(hay, needle, j + 1);
      }
      if exists i :: OccursAt(hay, needle, i) {
        var i :| OccursAt(hay, needle, i);
        assert !OccursAt(hay, needle, 0);
        assert hay[1..][i - 1..i - 1 + |needle|] == hay[i..i + |needle|];
        assert OccursAt(hay[1..], needle, i - 1);
      }
    } else {
      assert forall i :: OccursAt(hay, needle, i) ==> IsPrefix(needle, hay);
    }
  }

  /** A string contains every substring of any string it contains. */
  lemma ContainsTransitive(hay: string, mid: string, needle: string)
    requires Contains(hay, mid) && Contains(mid, needle)
    ensures Contains(hay, needle)
  {
    ContainsAt(hay, mid);
    ContainsAt(mid, needle);
    var i :| OccursAt(hay, mid, i);
    var j :| OccursAt(mid, needle, j);
    forall k | 0 <= k < |needle|
      ensures hay[i + j + k] == needle[k]
    {
      assert mid[j + k] == hay[i + j + k];
    }
    assert OccursAt(hay, needle, i + j);
    ContainsAt(hay, needle);
  }

  lemma ContainsSelf(s: string)
    ensures Contains(s, s)
  {
    assert IsPrefix(s, s);
  }

  /** `a in a + b` and `b in a + b`. */
  lemma ContainsConcat(a: string, b: string)
    ensures Contains(a + b, a) && Contains(a + b, b)
  {
    ContainsAt(a + b, a);
    assert OccursAt(a + b, a, 0);
    ContainsAt(a + b, b);
    assert OccursAt(a + b, b, |a|);
  }

  /** `m in a + m + b`. */
  lemma ContainsMiddle(a: string, m: string, b: string)
    ensures Contains(a + m + b, m)
  {
    ContainsAt(a + m + b, m);
    assert (a + m + b)[|a|..|a| + |m|] == m;
    assert OccursAt(a + m + b, m, |a|);
  }

  // ------------------------------------------------------------ str(n), int(s)

  predicate IsDigit(c: char) {
    '0' <= c <= '9'
  }

  function DigitChar(d: nat): char
    requires d < 10
  {
    ('0' as int + d) as char
  }

  /** `str(n)` for a non-negative integer: its decimal digits, without leading zeros. */
  function NatToString(n: nat): (r: string)
    ensures |r| > 0
    ensures forall i :: 0 <= i < |r| ==> IsDigit(r[i])
    decreases n
  {
    if n < 10 then [DigitChar(n)] else NatToString(n / 10) + [DigitChar(n % 10)]
  }

  /** `str(i)` for any integer. */
  function IntToString(i: int): (r: string)
    ensures |r| > 0
  {
    if i < 0 then "-" + NatToString(-i) else NatToString(i)
  }

  /**
   * The whitespace `int()` strips around a number: the ASCII \t \n \v \f \r and
   * space, and the non-ASCII characters `str.isspace` accepts (Unicode 15.0):
   * NEL, no-break space, and the Unicode space and line/paragraph separators.
   * The ASCII separators 0x1c-0x1f are `str.isspace` but are not stripped.
   */
  predicate IsSpace(c: char) {
    || '\t' <= c <= '\r' || c == ' '
    || c == '\U{85}' || c == '\U{a0}' || c == '\U{1680}'
    || '\U{2000}' <= c <= '\U{200a}' || c == '\U{2028}' || c == '\U{2029}'
    || c == '\U{202f}' || c == '\U{205f}' || c == '\U{3000}'
  }

  /** `str.lstrip()`: drops the whitespace in front. */
  function TrimLeft(s: string): string {
    if s != [] && IsSpace(s[0]) then TrimLeft(s[1..]) else s
  }

  /** `str.rstrip()`: drops the whitespace behind. */
  function TrimRight(s: string): string {
    if s != [] && IsSpace(s[|s| - 1]) then TrimRight(s[..|s| - 1]) else s
  }

  /** What `lstrip` drops is all whitespace, and what it keeps is a suffix that starts with a non-space. */
  lemma {:induction false} TrimLeftSuffix(s: string)
    ensures |TrimLeft(s)| <= |s| && TrimLeft(s) == s[|s| - |TrimLeft(s)|..]
    ensures forall i :: 0 <= i < |s| - |TrimLeft(s)| ==> IsSpace(s[i])
    ensures |TrimLeft(s)| > 0 ==> !IsSpace(TrimLeft(s)[0])
  {
    if s != [] && IsSpace(s[0]) {
      TrimLeftSuffix(s[1..]);
      forall i | 1 <= i < |s| - |TrimLeft(s)|
        ensures IsSpace(s[i])
      {
        assert s[i] == s[1..][i - 1];
      }
    }
  }

  /** What `rstrip` drops is all whitespace, and what it keeps is a prefix that ends with a non-space. */
  lemma {:induction false} TrimRightPrefix(s: string)
    ensures |TrimRight(s)| <= |s| && TrimRight(s) == s[..|TrimRight(s)|]
    ensures forall i :: |TrimRight(s)| <= i < |s| ==> IsSpace(s[i])
    ensures |TrimRight(s)| > 0 ==> !IsSpace(TrimRight(s)[|TrimRight(s)| - 1])
  {
    if s != [] && IsSpace(s[|s| - 1]) {
      var p := s[..|s| - 1];
      TrimRightPrefix(p);
      forall i | |TrimRight(s)| <= i < |s| - 1
        ensures IsSpace(s[i])
      {
        assert s[i] == p[i];
      }
    }
  }

  /** The number of decimal digit blocks in Unicode 15.0 (general category Nd). */
  const DecimalBlocks := 68

  /**
   * The code point of the zero of decimal digit block `i`; the block runs from its zero to its nine.
   * The table is split by halves of the index range, eight blocks or so per leaf.
   */
  function DecimalZero(i: nat): int
    requires i < DecimalBlocks
  {
    if i < 34 then
      if i < 17 then
        if i < 8 then
          match i
          case 0 => 0x30  case 1 => 0x660  case 2 => 0x6F0
          case 3 => 0x7C0  case 4 => 0x966  case 5 => 0x9E6
          case 6 => 0xA66  case _ => 0xAE6
        else
          match i
          case 8 => 0xB66  case 9 => 0xBE6  case 10 => 0xC66
          case 11 => 0xCE6  case 12 => 0xD66  case 13 => 0xDE6
          case 14 => 0xE50  case 15 => 0xED0  case _ => 0xF20
      else
        if i < 25 then
          match i
          case 17 => 0x1040  case 18 => 0x1090  case 19 => 0x17E0
          case 20 => 0x1810  case 21 => 0x1946  case 22 => 0x19D0
          case 23 => 0x1A80  case _ => 0x1A90
        else
          match i
          case 25 => 0x1B50  case 26 => 0x1BB0  case 27 => 0x1C40
          case 28 => 0x1C50  case 29 => 0xA620  case 30 => 0xA8D0
          case 31 => 0xA900  case 32 => 0xA9D0  case _ => 0xA9F0
    else
      if i < 51 then
        if i < 42 then
          match i
          case 34 => 0xAA50  case 35 => 0xABF0  case 36 => 0xFF10
          case 37 => 0x104A0  case 38 => 0x10D30  case 39 => 0x11066
          case 40 => 0x110F0  case _ => 0x11136
        else
          match i
          case 42 => 0x111D0  case 43 => 0x112F0  case 44 => 0x11450
          case 45 => 0x114D0  case 46 => 0x11650  case 47 => 0x116C0
          case 48 => 0x11730  case 49 => 0x118E0  case _ => 0x11950
      else
        if i < 59 then
          match i
          case 51 => 0x11C50  case 52 => 0x11D50  case 53 => 0x11DA0
          case 54 => 0x11F50  case 55 => 0x16A60  case 56 => 0x16AC0
          case 57 => 0x16B50  case _ => 0x1D7CE
        else
          match i
          case 59 => 0x1D7D8  case 60 => 0x1D7E2  case 61 => 0x1D7EC
          case 62 => 0x1D7F6  case 63 => 0x1E140  case 64 => 0x1E2F0
          case 65 => 0x1E4F0  case 66 => 0x1E950  case _ => 0x1FBF0
  }

  /**
   * The value of a Unicode decimal digit, which `int()` reads like its ASCII
   * counterpart. Below the second block only the ASCII digits are digits.
   */
  function DecimalValue(c: char): (r: Option<nat>)
    ensures r.Some? ==> r.value < 10
  {
    if c as int < DecimalZero(1) then
      if IsDigit(c) then Some(c as int - '0' as int) else None
    else DecimalIn(c, 1)
  }

  function DecimalIn(c: char, i: nat): (r: Option<nat>)
    ensures r.Some? ==> r.value < 10
    decreases DecimalBlocks - i
  {
    if i >= DecimalBlocks then None
    else if DecimalZero(i) <= c as int < DecimalZero(i) + 10 then Some(c as int - DecimalZero(i))
    else DecimalIn(c, i + 1)
  }

  predicate IsDecimal(c: char) {
    DecimalValue(c).Some?
  }

  /** An ASCII digit is a decimal digit with its usual value. */
  lemma AsciiDecimal(c: char)
    requires IsDigit(c)
    ensures DecimalValue(c) == Some(c as int - '0' as int)
  {
  }

  /** The blocks lie in ascending order and do not overlap. */
  lemma ZerosAscending(j: nat)
    requires j + 1 < DecimalBlocks
    ensures DecimalZero(j) + 10 <= DecimalZero(j + 1)
  {
  }

  lemma {:induction false} ZerosBelow(i: nat, k: nat)
    requires i < k < DecimalBlocks
    ensures DecimalZero(i) + 10 <= DecimalZero(k)
    decreases k - i
  {
    ZerosAscending(i);
    if i + 1 < k {
      ZerosBelow(i + 1, k);
    }
  }

  /** The lookup passes over the blocks that end at or below `c`. */
  lemma {:induction false} SkipBlocks(c: char, i: nat, k: nat)
    requires i <= k < DecimalBlocks
    requires i < k ==> DecimalZero(k - 1) + 10 <= c as int
    ensures DecimalIn(c, i) == DecimalIn(c, k)
    decreases k - i
  {
    if i < k {
      SkipBlocks(c, i + 1, k);
      SkipOne(c, i, k);
    }
  }

  lemma SkipOne(c: char, i: nat, k: nat)
    requires i < k < DecimalBlocks && DecimalZero(k - 1) + 10 <= c as int
    ensures DecimalIn(c, i) == DecimalIn(c, i + 1)
  {
    if i < k - 1 {
      ZerosBelow(i, k - 1);
    }
    PastBlock(c, i);
  }

  lemma PastBlock(c: char, i: nat)
    requires i < DecimalBlocks && DecimalZero(i) + 10 <= c as int
    ensures DecimalIn(c, i) == DecimalIn(c, i + 1)
  {
  }

  /** The lookup finds nothing among blocks that start above `c`. */
  lemma {:induction false} BelowBlocks(c: char, k: nat)
    requires k < DecimalBlocks ==> c as int < DecimalZero(k)
    ensures DecimalIn(c, k).None?
    decreases DecimalBlocks - k
  {
    if k < DecimalBlocks {
      if k + 1 < DecimalBlocks {
        ZerosAscending(k);
      }
      BelowBlocks(c, k + 1);
    }
  }

  /** Each digit of each block reads as its place in the block: the d-th code point from a zero is d. */
  lemma DecimalOfBlock(k: nat, c: char)
    requires k < DecimalBlocks && DecimalZero(k) <= c as int < DecimalZero(k) + 10
    ensures DecimalValue(c) == Some(c as int - DecimalZero(k))
  {
    if k > 1 {
      ZerosBelow(1, k);
      SkipBlocks(c, 1, k);
    }
  }

  /** A code point in the gap between two blocks is no digit: `int()` rejects it. */
  lemma BetweenBlocks(c: char, k: nat)
    requires 0 < k < DecimalBlocks && DecimalZero(k - 1) + 10 <= c as int < DecimalZero(k)
    ensures !IsDecimal(c)
  {
    if k > 1 {
      if k > 2 {
        ZerosBelow(1, k - 1);
      }
      SkipBlocks(c, 1, k);
      BelowBlocks(c, k);
    }
  }

  /** Below the Arabic-Indic block only the ASCII digits are digits: `_`, signs and ASCII spaces are not. */
  lemma AsciiNonDigit(c: char)
    requires c as int < 0x660 && !IsDigit(c)
    ensures !IsDecimal(c)
  {
  }

  /** No whitespace character is a digit. */
  lemma SpaceNotDecimal(c: char)
    requires IsSpace(c)
    ensures !IsDecimal(c)
  {
    if c as int < 0x660 {
      AsciiNonDigit(c);
    } else if c as int < 0x17E0 {
      BetweenBlocks(c, 19);
    } else {
      BetweenBlocks(c, 29);
    }
  }

  /** Decimal digits with single underscores between them, as `int()` accepts them. */
  predicate ValidDigits(s: string) {
    && |s| > 0
    && IsDecimal(s[0])
    && IsDecimal(s[|s| - 1])
    && forall i :: 0 <= i < |s| ==> IsDecimal(s[i]) || (s[i] == '_' && i + 1 < |s| && IsDecimal(s[i + 1]))
  }

  /** The value of a digit string, skipping underscores. */
  function DigitsValue(s: string): nat
    decreases |s|
  {
    if s == [] then 0
    else if s[|s| - 1] == '_' then DigitsValue(s[..|s| - 1])
    else DigitsValue(s[..|s| - 1]) * 10 + (match DecimalValue(s[|s| - 1]) case Some(d) => d case None => 0)
  }

  /** The number of digits in a digit string: its characters other than underscores. */
  function DigitCount(s: string): nat
    decreases |s|
  {
    if s == [] then 0
    else DigitCount(s[..|s| - 1]) + (if s[|s| - 1] == '_' then 0 else 1)
  }

  /** Python's default limit on the digits `int()` reads and `str()` writes (`sys.int_info.default_max_str_digits`). */
  const MaxStrDigits := 4300

  /** The number of decimal digits of `i`, as `str(i)` writes them. */
  function DigitsOf(i: int): nat {
    if i < 0 then |NatToString(-i)| else |NatToString(i)|
  }

  /** `int(s)` for a string: surrounding whitespace, an optional sign, then digits; `None` for a ValueError. */
  function ParseInt(s: string): Option<int> {
    ParseStripped(TrimRight(TrimLeft(s)))
  }

  /** `int()` of an empty or all-whitespace string raises. */
  lemma ParseIntBlank(s: string)
    requires forall i :: 0 <= i < |s| ==> IsSpace(s[i])
    ensures ParseInt(s).None?
  {
    TrimLeftSuffix(s);
  }

  /** The ASCII separators 0x1c-0x1f are not stripped: `int("\x1c500")` raises. */
  lemma SeparatorRejected(c: char, t: string)
    requires '\U{1c}' <= c <= '\U{1f}'
    ensures ParseInt([c] + t).None?
  {
    var s := [c] + t;
    assert TrimLeft(s) == s;
    TrimRightPrefix(s);
    AsciiNonDigit(c);
  }

  /** `int(s)` succeeds only when `s` holds a decimal digit. */
  lemma ParseIntHasDigit(s: string)
    ensures ParseInt(s).Some? ==> exists i :: 0 <= i < |s| && IsDecimal(s[i])
  {
    var u := TrimLeft(s);
    var t := TrimRight(u);
    TrimLeftSuffix(s);
    TrimRightPrefix(u);
    if ParseStripped(t).Some? {
      var k := if t[0] == '+' || t[0] == '-' then 1 else 0;
      assert IsDecimal(t[k]);
      assert t[k] == u[k] == s[|s| - |u| + k];
    }
  }

  /** `int()` of the text once its surrounding whitespace is gone; more than 4300 digits raise ValueError. */
  function ParseStripped(t: string): Option<int> {
    if |t| > 0 && (t[0] == '+' || t[0] == '-') then
      if ValidDigits(t[1..]) && DigitCount(t[1..]) <= MaxStrDigits then
        var v: int := DigitsValue(t[1..]);
        Some(if t[0] == '-' then -v else v)
      else None
    else if ValidDigits(t) && DigitCount(t) <= MaxStrDigits then Some(DigitsValue(t))
    else None
  }

  /** `int(j)` for a JSON value; `None` stands for the ValueError or TypeError it raises. */
  function IntOf(j: Json): (r: Option<int>)
    ensures j.Int? ==> r == Some(j.i)
    ensures r.Some? ==> j.Int? || j.Bool? || j.Str?
  {
    match j
    case Int(i) => Some(i)
    case Bool(b) => Some(if b then 1 else 0)
    case Str(s) => ParseInt(s)
    case _ => None
  }

  lemma {:induction false} DigitsValueOfNat(n: nat)
    ensures DigitsValue(NatToString(n)) == n
    decreases n
  {
    var r := NatToString(n);
    if n < 10 {
      assert r[..0] == [];
    } else {
      DigitsValueOfNat(n / 10);
      assert r[..|r| - 1] == NatToString(n / 10);
    }
    AsciiDecimal(r[|r| - 1]);
  }

  /** Leading whitespace is stripped up to the first character that is not whitespace. */
  lemma {:induction false} TrimLeftSpaces(pre: string, t: string)
    requires forall i :: 0 <= i < |pre| ==> IsSpace(pre[i])
    requires t != [] ==> !IsSpace(t[0])
    ensures TrimLeft(pre + t) == t
  {
    if pre != [] {
      assert (pre + t)[1..] == pre[1..] + t;
      TrimLeftSpaces(pre[1..], t);
    } else {
      assert pre + t == t;
    }
  }

  /** Trailing whitespace is stripped back to the last character that is not whitespace. */
  lemma {:induction false} TrimRightSpaces(t: string, post: string)
    requires forall i :: 0 <= i < |post| ==> IsSpace(post[i])
    requires t != [] ==> !IsSpace(t[|t| - 1])
    ensures TrimRight(t + post) == t
  {
    if post != [] {
      var p := post[..|post| - 1];
      assert (t + post)[..|t + post| - 1] == t + p;
      TrimRightSpaces(t, p);
    } else {
      assert t + post == t;
    }
  }

  /** `int(s)` ignores whitespace around the number: `int("\xa0 500 　") == int("500")`. */
  lemma ParseIntStrips(pre: string, t: string, post: string)
    requires forall i :: 0 <= i < |pre| ==> IsSpace(pre[i])
    requires forall i :: 0 <= i < |post| ==> IsSpace(post[i])
    requires t != [] && !IsSpace(t[0]) && !IsSpace(t[|t| - 1])
    ensures ParseInt(pre + t + post) == ParseInt(t)
  {
    TrimBoth(pre, t, post);
    TrimBoth([], t, []);
    assert [] + t + [] == t;
  }

  lemma TrimBoth(pre: string, t: string, post: string)
    requires forall i :: 0 <= i < |pre| ==> IsSpace(pre[i])
    requires forall i :: 0 <= i < |post| ==> IsSpace(post[i])
    requires t != [] && !IsSpace(t[0]) && !IsSpace(t[|t| - 1])
    ensures TrimRight(TrimLeft(pre + t + post)) == t
  {
    var u := t + post;
    assert pre + t + post == pre + u;
    assert u[0] == t[0];
    TrimLeftSpaces(pre, u);
    TrimRightSpaces(t, post);
  }

  /** A run of decimal digits of any script parses to its value. */
  lemma ParseIntOfDecimals(s: string)
    requires |s| > 0 && forall i :: 0 <= i < |s| ==> IsDecimal(s[i])
    requires |s| <= MaxStrDigits
    ensures ParseInt(s) == Some(DigitsValue(s))
  {
    DigitCountOfDecimals(s);
    if IsSpace(s[0]) {
      SpaceNotDecimal(s[0]);
    }
    if IsSpace(s[|s| - 1]) {
      SpaceNotDecimal(s[|s| - 1]);
    }
    assert TrimLeft(s) == s;
    assert TrimRight(s) == s;
    AsciiNonDigit('+');
    AsciiNonDigit('-');
  }

  /** A run of more than 4300 decimal digits is refused: `int()` raises ValueError. */
  lemma ParseIntTooLong(s: string)
    requires forall i :: 0 <= i < |s| ==> IsDecimal(s[i])
    requires |s| > MaxStrDigits
    ensures ParseInt(s).None?
  {
    DigitCountOfDecimals(s);
    if IsSpace(s[0]) {
      SpaceNotDecimal(s[0]);
    }
    if IsSpace(s[|s| - 1]) {
      SpaceNotDecimal(s[|s| - 1]);
    }
    assert TrimLeft(s) == s;
    assert TrimRight(s) == s;
    AsciiNonDigit('+');
    AsciiNonDigit('-');
  }

  /** A run of decimal digits has no underscore, so each of its characters is a digit to count. */
  lemma {:induction false} DigitCountOfDecimals(s: string)
    requires forall i :: 0 <= i < |s| ==> IsDecimal(s[i])
    ensures DigitCount(s) == |s|
    decreases |s|
  {
    if s != [] {
      AsciiNonDigit('_');
      DigitCountOfDecimals(s[..|s| - 1]);
    }
  }

  /** `int(str(n)) == n`: parsing the decimal text of a number of at most 4300 digits gives the number back. */
  lemma ParseIntOfNat(n: nat)
    requires |NatToString(n)| <= MaxStrDigits
    ensures ParseInt(NatToString(n)) == Some(n)
  {
    var r := NatToString(n);
    forall i | 0 <= i < |r|
      ensures IsDecimal(r[i])
    {
      AsciiDecimal(r[i]);
    }
    ParseIntOfDecimals(r);
    DigitsValueOfNat(n);
  }

  /** A minus sign before a run of decimal digits negates their value. */
  lemma ParseIntNegative(d: string)
    requires |d| > 0 && forall i :: 0 <= i < |d| ==> IsDecimal(d[i])
    requires |d| <= MaxStrDigits
    ensures ParseInt("-" + d) == Some(-(DigitsValue(d) as int))
  {
    DigitCountOfDecimals(d);
    NegativeUnstripped(d);
    NegativeStripped("-" + d, d);
  }

  /** `int()` strips nothing from a minus sign followed by digits. */
  lemma NegativeUnstripped(d: string)
    requires |d| > 0 && IsDecimal(d[|d| - 1])
    ensures TrimRight(TrimLeft("-" + d)) == "-" + d
  {
    var t := "-" + d;
    assert !IsSpace(t[0]);
    if IsSpace(d[|d| - 1]) {
      SpaceNotDecimal(d[|d| - 1]);
    }
    assert t[|t| - 1] == d[|d| - 1];
    TrimBoth([], t, []);
    assert [] + t + [] == t;
  }

  lemma NegativeStripped(t: string, d: string)
    requires t == "-" + d && ValidDigits(d) && DigitCount(d) <= MaxStrDigits
    ensures ParseStripped(t) == Some(-(DigitsValue(d) as int))
  {
    assert t[1..] == d;
  }

  /** `int(str(i)) == i` for every integer of at most 4300 digits, negative ones included. */
  lemma IntToStringParses(i: int)
    requires DigitsOf(i) <= MaxStrDigits
    ensures ParseInt(IntToString(i)) == Some(i)
  {
    if i >= 0 {
      assert IntToString(i) == NatToString(i);
      ParseIntOfNat(i);
    } else {
      assert IntToString(i) == "-" + NatToString(-i);
      NegativeParses(-i);
    }
  }

  /** `int("-" + str(n)) == -n`. */
  lemma NegativeParses(n: nat)
    requires |NatToString(n)| <= MaxStrDigits
    ensures ParseInt("-" + NatToString(n)) == Some(-(n as int))
  {
    var d := NatToString(n);
    NatDecimals(n);
    ParseIntNegative(d);
    assert ParseInt("-" + d) == Some(-(DigitsValue(d) as int));
    DigitsValueOfNat(n);
    assert DigitsValue(d) == n;
    assert ParseInt("-" + d) == Some(-(n as int));
  }

  /** The text of a number is a non-empty run of decimal digits. */
  lemma NatDecimals(n: nat)
    ensures |NatToString(n)| > 0 && forall j :: 0 <= j < |NatToString(n)| ==> IsDecimal(NatToString(n)[j])
  {
    var d := NatToString(n);
    forall j | 0 <= j < |d|
      ensures IsDecimal(d[j])
    {
      AsciiDecimal(d[j]);
    }
  }

  // ---------------------------------------------------------------- paths

  /** `Path(path).name`: the part after the last separator. */
  function BaseName(path: string): (r: string)
    ensures '/' !in r
  {
    if path == [] then []
    else if path[|path| - 1] == '/' then []
    else BaseName(path[..|path| - 1]) + [path[|path| - 1]]
  }
}
