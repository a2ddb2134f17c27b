// Shared vocabulary of the model: optional values, Python-style exceptions,
// the loosely typed values stored in entity and metadata dictionaries, and the
// handful of Python string operations the bot relies on.

module Common {

  datatype Option<T> = None | Some(value: T)

  /** The result of a call that may raise a Python exception instead of returning. */
  datatype Outcome<T> = Ok(value: T) | Raised(error: string)

  /** A value held in a `dict[str, Any]` (entities, metadata). */
  datatype Value = VStr(s: string) | VInt(i: int) | VBool(b: bool) | VNone

  type Dict = map<string, Value>

  // ---------------------------------------------------------------------------
  // Substrings
  // ---------------------------------------------------------------------------

  predicate StartsWith<T(==)>(s: seq<T>, prefix: seq<T>)
  {
    |prefix| <= |s| && s[..|prefix|] == prefix
  }

  /** Python's `needle in text` for strings. */
  predicate Contains<T(==)>(text: seq<T>, needle: seq<T>)
    decreases |text|
  {
    StartsWith(text, needle) || (|text| > 0 && Contains(text[1..], needle))
  }

  /** `needle` occurs in `text` starting at index `i`. */
  predicate OccursAt<T(==)>(text: seq<T>, needle: seq<T>, i: int)
  {
    0 <= i <= |text| - |needle| && text[i..i + |needle|] == needle
  }

  /** `Contains` agrees with the textbook definition: some window of `text` equals `needle`. */
  lemma {:induction false} ContainsIffWindow<T>(text: seq<T>, needle: seq<T>)
    ensures Contains(text, needle) <==> exists i :: OccursAt(text, needle, i)
    decreases |text|
  {
    if StartsWith(text, needle) {
      assert OccursAt(text, needle, 0);
    } else if |text| == 0 {
    } else {
      ContainsIffWindow(text[1..], needle);
      if Contains(text[1..], needle) {
        var i :| OccursAt(text[1..], needle, i);
        assert text[i + 1..i + 1 + |needle|] == text[1..][i..i + |needle|];
        assert OccursAt(text, needle, i + 1);
      }
      if exists i :: OccursAt(text, needle, i) {
        assert !OccursAt(text, needle, 0);
        var i :| OccursAt(text, needle, i);
        assert text[1..][i - 1..i - 1 + |needle|] == text[i..i + |needle|];
        assert OccursAt(text[1..], needle, i - 1);
      }
    }
  }

  /** A string never contains a longer one. */
  lemma {:induction false} ContainsLength<T>(text: seq<T>, needle: seq<T>)
    requires Contains(text, needle)
    ensures |needle| <= |text|
    decreases |text|
  {
    if !StartsWith(text, needle) {
      ContainsLength(text[1..], needle);
    }
  }

  // ---------------------------------------------------------------------------
  // Whitespace, as Python's `str.isspace`, `\s`, `str.strip()` and `str.split()` see it
  // ---------------------------------------------------------------------------

  predicate IsSpace(c: char)
  {
    c == ' ' || ('\t' <= c <= '\r') || ('\U{1C}' <= c <= '\U{1F}') ||
    c == '\U{85}' || c == '\U{A0}' || c == '\U{1680}' ||
    ('\U{2000}' <= c <= '\U{200A}') || c == '\U{2028}' || c == '\U{2029}' ||
    c == '\U{202F}' || c == '\U{205F}' || c == '\U{3000}'
  }

  function TrimStart(s: string): (r: string)
    ensures |r| <= |s| && r == s[|s| - |r|..]
    ensures r == [] || !IsSpace(r[0])
    ensures forall i :: 0 <= i < |s| - |r| ==> IsSpace(s[i])
  {
    if |s| > 0 && IsSpace(s[0]) then TrimStart(s[1..]) else s
  }

  function TrimEnd(s: string): (r: string)
    ensures |r| <= |s| && r == s[..|r|]
    ensures r == [] || !IsSpace(r[|r| - 1])
    ensures forall i :: |r| <= i < |s| ==> IsSpace(s[i])
  {
    if |s| > 0 && IsSpace(s[|s| - 1]) then TrimEnd(s[..|s| - 1]) else s
  }

  /** Python's `s.strip()`. */
  function Strip(s: string): (r: string)
  {
    TrimEnd(TrimStart(s))
  }

  /** A string without whitespace at either end is left alone by `strip`. */
  lemma StripFixpoint(s: string)
    requires s == [] || (!IsSpace(s[0]) && !IsSpace(s[|s| - 1]))
    ensures Strip(s) == s
  {
  }

  /** True when `s` holds nothing but whitespace (also when empty). */
  predicate AllSpace(s: string)
  {
    forall i :: 0 <= i < |s| ==> IsSpace(s[i])
  }

  lemma {:induction false} TrimStartBlank(s: string)
    requires AllSpace(s)
    ensures TrimStart(s) == []
  {
    if |s| > 0 { TrimStartBlank(s[1..]); }
  }

  /** `strip` yields "" exactly on blank input. */
  lemma StripEmptyIffBlank(s: string)
    ensures Strip(s) == [] <==> AllSpace(s)
  {
    if AllSpace(s) {
      TrimStartBlank(s);
    }
  }

  /** The first token of Python's `s.split()`, if any. */
  function FirstToken(s: string): (r: Option<string>)
    ensures r.Some? ==> r.value != [] && forall i :: 0 <= i < |r.value| ==> !IsSpace(r.value[i])
    ensures r.None? <==> AllSpace(s)
  {
    var t := TrimStart(s);
    if t == [] then None else Some(TakeToken(t))
  }

  function TakeToken(s: string): (r: string)
    ensures |r| <= |s| && r == s[..|r|]
    ensures |r| < |s| ==> IsSpace(s[|r|])
    ensures forall i :: 0 <= i < |r| ==> !IsSpace(r[i])
  {
    if s == [] || IsSpace(s[0]) then [] else [s[0]] + TakeToken(s[1..])
  }

  // ---------------------------------------------------------------------------
  // Python slicing with a possibly negative bound
  // ---------------------------------------------------------------------------

  /** `s[:k]` */
  function SliceTo<T>(s: seq<T>, k: int): (r: seq<T>)
    ensures |r| <= |s| && r == s[..|r|]
    ensures k >= 0 ==> |r| == if k <= |s| then k else |s|
    ensures k < 0 ==> |r| == if -k <= |s| then |s| + k else 0
  {
    if k >= 0 then (if k <= |s| then s[..k] else s)
    else (if -k <= |s| then s[..|s| + k] else [])
  }

  /** `s[-n:]` for a positive `n`: the last `n` elements. */
  function LastN<T>(s: seq<T>, n: nat): (r: seq<T>)
    ensures |r| == if n <= |s| then n else |s|
    ensures r == s[|s| - |r|..]
  {
    if n <= |s| then s[|s| - n..] else s
  }

  // ---------------------------------------------------------------------------
  // Decimal numerals
  // ---------------------------------------------------------------------------

  predicate IsDigit(c: char) { '0' <= c <= '9' }

  predicate AllDigits(s: string) { forall i :: 0 <= i < |s| ==> IsDigit(s[i]) }

  /** Python's `int(s)` for a run of ASCII digits. */
  function DecimalValue(s: string): (n: nat)
    requires AllDigits(s)
  {
    if s == [] then 0 else 10 * DecimalValue(s[..|s| - 1]) + (s[|s| - 1] - '0') as nat
  }

  function NatToString(n: nat): (r: string)
    ensures r != [] && AllDigits(r)
  {
    if n < 10 then [('0' as int + n) as char]
    else NatToString(n / 10) + [('0' as int + n % 10) as char]
  }

  /** Python's `str(n)` for an integer. */
  function IntToString(n: int): string
  {
    if n >= 0 then NatToString(n) else "-" + NatToString(-n)
  }

  /** Reading back the rendering of a natural number gives that number. */
  lemma {:induction false} NatToStringRoundTrip(n: nat)
    ensures DecimalValue(NatToString(n)) == n
  {
    if n >= 10 {
      NatToStringRoundTrip(n / 10);
      var s := NatToString(n);
      assert s[..|s| - 1] == NatToString(n / 10);
    }
  }

  /** Python's `sep.join(parts)`. */
  function JoinWith(parts: seq<string>, sep: string): (r: string)
    ensures |parts| == 1 ==> r == parts[0]
    ensures |parts| > 1 ==> StartsWith(r, JoinWith(parts[..|parts| - 1], sep) + sep)
  {
    if |parts| == 0 then ""
    else if |parts| == 1 then parts[0]
    else JoinWith(parts[..|parts| - 1], sep) + sep + parts[|parts| - 1]
  }

  /** Joining one more part appends the separator and that part. */
  lemma JoinWithAppend(parts: seq<string>, x: string, sep: string)
    requires parts != []
    ensures JoinWith(parts + [x], sep) == JoinWith(parts, sep) + sep + x
  {
    assert (parts + [x])[..|parts|] == parts;
  }

  /** Python's `str(v)` for the values the bot renders into text. */
  function Display(v: Value): string
  {
    match v
    case VStr(s) => s
    case VInt(i) => IntToString(i)
    case VBool(b) => if b then "True" else "False"
    case VNone => "None"
  }
}
