// The static text and entity helpers of src/utils/helpers.py: whitespace
// normalisation, truncation, punctuation removal, number extraction and the
// keyword-table entity extractors used by the message pipeline.

module TextHelpers {
  import opened Common

  // ---------------------------------------------------------------------------
  // clean_text
  // ---------------------------------------------------------------------------

  /** Every whitespace character is a plain space and is followed by a non-space. */
  predicate SingleSpaced(s: string)
  {
    forall i :: 0 <= i < |s| && IsSpace(s[i]) ==> s[i] == ' ' && (i + 1 < |s| ==> !IsSpace(s[i + 1]))
  }

  /** `re.sub(r"\s+", " ", s)`: each maximal run of whitespace becomes one space. */
  function Collapse(s: string): (r: string)
    ensures |r| <= |s| && (r == [] <==> s == [])
    ensures s != [] ==> (IsSpace(r[0]) <==> IsSpace(s[0]))
    ensures s != [] ==> (IsSpace(r[|r| - 1]) <==> IsSpace(s[|s| - 1]))
    decreases |s|
  {
    if s == [] then []
    else if IsSpace(s[0]) then [' '] + Collapse(TrimStart(s[1..]))
    else [s[0]] + Collapse(s[1..])
  }

  /** No two whitespace characters are left next to each other, and each is a plain space. */
  lemma {:induction false} CollapseSingleSpaced(s: string)
    ensures SingleSpaced(Collapse(s))
    decreases |s|
  {
    if s != [] {
      if IsSpace(s[0]) {
        var t := TrimStart(s[1..]);
        CollapseSingleSpaced(t);
        SingleSpacedCons(' ', Collapse(t));
      } else {
        CollapseSingleSpaced(s[1..]);
        SingleSpacedCons(s[0], Collapse(s[1..]));
      }
    }
  }

  lemma SingleSpacedCons(c: char, r: string)
    requires SingleSpaced(r)
    requires IsSpace(c) ==> c == ' ' && (r == [] || !IsSpace(r[0]))
    ensures SingleSpaced([c] + r)
  {
    var s := [c] + r;
    forall i | 0 <= i < |s| && IsSpace(s[i])
      ensures s[i] == ' ' && (i + 1 < |s| ==> !IsSpace(s[i + 1]))
    {
      if i > 0 {
        assert s[i] == r[i - 1];
        if i + 1 < |s| { assert s[i + 1] == r[i]; }
      }
    }
  }

  /** `TextHelper.clean_text`. */
  function CleanText(text: string): (r: string)
    ensures r == [] || (!IsSpace(r[0]) && !IsSpace(r[|r| - 1]))
    ensures SingleSpaced(r)
  {
    if text == [] then [] else CollapseSingleSpaced(Strip(text)); Collapse(Strip(text))
  }

  /** A single-spaced string is its own collapse. */
  lemma {:induction false} CollapseFixpoint(s: string)
    requires SingleSpaced(s)
    ensures Collapse(s) == s
    decreases |s|
  {
    if s != [] {
      assert SingleSpaced(s[1..]);
      if IsSpace(s[0]) && |s| > 1 {
        assert !IsSpace(s[1..][0]);
      }
      CollapseFixpoint(s[1..]);
    }
  }

  /** Cleaning a cleaned text changes nothing. */
  lemma CleanTextIdempotent(text: string)
    ensures CleanText(CleanText(text)) == CleanText(text)
  {
    var c := CleanText(text);
    if c != [] {
      StripFixpoint(c);
      CollapseFixpoint(c);
    }
  }

  /** A text of nothing but whitespace cleans to the empty string. */
  lemma CleanTextBlank(text: string)
    requires AllSpace(text)
    ensures CleanText(text) == []
  {
    StripEmptyIffBlank(text);
  }

  // ---------------------------------------------------------------------------
  // truncate_text
  // ---------------------------------------------------------------------------

  /** `TextHelper.truncate_text`: `text[:max_length - len(suffix)] + suffix` when too long. */
  function TruncateText(text: string, maxLength: int, suffix: string := "..."): string
  {
    if |text| <= maxLength then text else SliceTo(text, maxLength - |suffix|) + suffix
  }

  /** A text that fits is returned unchanged; a longer one keeps its first
      `maxLength - |suffix|` characters and ends in the suffix, fitting exactly. */
  lemma TruncateTextSpec(text: string, maxLength: int, suffix: string)
    requires |suffix| <= maxLength
    ensures |text| <= maxLength ==> TruncateText(text, maxLength, suffix) == text
    ensures |text| > maxLength ==>
      var r := TruncateText(text, maxLength, suffix);
      |r| == maxLength && r == text[..maxLength - |suffix|] + suffix
  {
  }

  /** When the suffix is longer than `maxLength` the slice end is negative and
      counts from the end of the text, so the result is longer than `maxLength`. */
  lemma TruncateTextShortLimit(text: string, maxLength: int, suffix: string)
    requires 0 <= maxLength < |suffix| && |text| > |suffix|
    ensures TruncateText(text, maxLength, suffix) == text[..|text| + maxLength - |suffix|] + suffix
    ensures |TruncateText(text, maxLength, suffix)| == |text| + maxLength > maxLength
  {
  }

  // ---------------------------------------------------------------------------
  // remove_punctuation
  // ---------------------------------------------------------------------------

  /** Python's `string.punctuation`. */
  const ASCII_PUNCTUATION: set<char> := {
    '!', '\"', '#', '$', '%', '&', '\'', '(', ')', '*', '+', ',', '-', '.', '/', ':',
    ';', '<', '=', '>', '?', '@', '[', '\\', ']', '^', '_', '`', '{', '|', '}', '~'}

  /** The Chinese punctuation table of `remove_punctuation`; it lists the
      ideograph 一 ("one") and the middle dot among the marks. */
  const CHINESE_PUNCTUATION: set<char> := {
    '！', '？', '｡', '。', '＂', '＃', '＄', '％', '＆', '＇', '（', '）', '＊', '＋', '，', '－',
    '／', '：', '；', '＜', '＝', '＞', '＠', '［', '＼', '］', '＾', '＿', '｀', '｛', '｜', '｝',
    '～', '｟', '｠', '｢', '｣', '､', '、', '〃', '》', '「', '」', '『', '』', '【', '】', '〔',
    '〕', '〖', '〗', '〘', '〙', '〚', '〛', '〜', '〝', '〞', '〟', '〰', '〾', '〿', '—', '一',
    '·', '‘', '’', '‛', '“', '”', '„', '‟', '…', '‧', '﹏', '.'}

  predicate IsPunctuation(c: char)
  {
    c in ASCII_PUNCTUATION || c in CHINESE_PUNCTUATION
  }

  /** `TextHelper.remove_punctuation`. */
  function RemovePunctuation(text: string): (r: string)
    ensures forall i :: 0 <= i < |r| ==> !IsPunctuation(r[i])
    ensures |r| <= |text|
  {
    if text == [] then []
    else RemovePunctuation(text[..|text| - 1]) +
         (if IsPunctuation(text[|text| - 1]) then [] else [text[|text| - 1]])
  }

  /** Removal works character by character, keeping the order of what stays. */
  lemma {:induction false} RemovePunctuationAppend(a: string, b: string)
    ensures RemovePunctuation(a + b) == RemovePunctuation(a) + RemovePunctuation(b)
    decreases |b|
  {
    if b == [] {
      assert a + b == a;
    } else {
      assert (a + b)[..|a + b| - 1] == a + b[..|b| - 1];
      RemovePunctuationAppend(a, b[..|b| - 1]);
    }
  }

  /** A text without punctuation is kept whole. */
  lemma {:induction false} RemovePunctuationKeeps(text: string)
    requires forall i :: 0 <= i < |text| ==> !IsPunctuation(text[i])
    ensures RemovePunctuation(text) == text
    decreases |text|
  {
    if text != [] {
      RemovePunctuationKeeps(text[..|text| - 1]);
    }
  }

  /** The ideograph 一 ("one") is in the table, so it is removed wherever it stands. */
  lemma RemovePunctuationDropsYi(before: string, after: string)
    ensures RemovePunctuation(before + "一" + after) == RemovePunctuation(before) + RemovePunctuation(after)
  {
    var b1 := before + "一";
    assert b1[..|b1| - 1] == before;
    assert IsPunctuation(b1[|b1| - 1]);
    RemovePunctuationAppend(b1, after);
  }

  // ---------------------------------------------------------------------------
  // extract_numbers
  // ---------------------------------------------------------------------------

  function TakeDigits(s: string): (r: string)
    ensures |r| <= |s| && r == s[..|r|] && AllDigits(r)
    ensures |r| < |s| ==> !IsDigit(s[|r|])
  {
    if s != [] && IsDigit(s[0]) then [s[0]] + TakeDigits(s[1..]) else []
  }

  /** `TextHelper.extract_numbers`: the values of the digit runs, left to right. */
  function ExtractNumbers(s: string): seq<nat>
    decreases |s|
  {
    if s == [] then []
    else if !IsDigit(s[0]) then ExtractNumbers(s[1..])
    else
      var run := TakeDigits(s);
      [DecimalValue(run)] + ExtractNumbers(s[|run|..])
  }

  lemma ExtractNumbersSkip(c: char, rest: string)
    requires !IsDigit(c)
    ensures ExtractNumbers([c] + rest) == ExtractNumbers(rest)
  {
    assert ([c] + rest)[1..] == rest;
  }

  lemma {:induction false} TakeDigitsExtend(a: string, rest: string)
    requires a != [] && AllDigits(a)
    requires rest == [] || !IsDigit(rest[0])
    ensures TakeDigits(a + rest) == a
    decreases |a|
  {
    assert (a + rest)[1..] == a[1..] + rest;
    if |a| > 1 {
      TakeDigitsExtend(a[1..], rest);
    } else {
      assert a[1..] + rest == rest;
    }
  }

  lemma {:induction false} TakeDigitsPrefix(a: string, rest: string)
    requires |TakeDigits(a)| < |a|
    ensures TakeDigits(a + rest) == TakeDigits(a)
    decreases |a|
  {
    if a != [] && IsDigit(a[0]) {
      assert (a + rest)[1..] == a[1..] + rest;
      TakeDigitsPrefix(a[1..], rest);
    }
  }

  /** A string of digits is read as one number. */
  lemma ExtractNumbersRun(run: string)
    requires run != [] && AllDigits(run)
    ensures ExtractNumbers(run) == [DecimalValue(run)]
  {
    TakeDigitsExtend(run, []);
    assert run + [] == run;
    assert run[|run|..] == [];
  }

  lemma ExtractNumbersDigitStart(s: string)
    requires s != [] && IsDigit(s[0])
    ensures ExtractNumbers(s) == [DecimalValue(TakeDigits(s))] + ExtractNumbers(s[|TakeDigits(s)|..])
  {
  }

  /** The digit run at the start of `a` ends inside `a`: the split of the rest decides. */
  lemma ExtractNumbersSplitInner(a: string, c: char, b: string)
    requires a != [] && IsDigit(a[0]) && |TakeDigits(a)| < |a|
    requires ExtractNumbers(a[|TakeDigits(a)|..] + [c] + b) ==
             ExtractNumbers(a[|TakeDigits(a)|..]) + ExtractNumbers(b)
    ensures ExtractNumbers(a + [c] + b) == ExtractNumbers(a) + ExtractNumbers(b)
  {
    var s := a + [c] + b;
    var run := TakeDigits(a);
    TakeDigitsPrefix(a, [c] + b);
    assert s == a + ([c] + b);
    assert s[|run|..] == a[|run|..] + [c] + b;
    ExtractNumbersDigitStart(s);
    ExtractNumbersDigitStart(a);
  }

  /** `a` starts with a non-digit: it is skipped on both sides. */
  lemma ExtractNumbersSplitSkip(a: string, c: char, b: string)
    requires a != [] && !IsDigit(a[0])
    requires ExtractNumbers(a[1..] + [c] + b) == ExtractNumbers(a[1..]) + ExtractNumbers(b)
    ensures ExtractNumbers(a + [c] + b) == ExtractNumbers(a) + ExtractNumbers(b)
  {
    assert a + [c] + b == [a[0]] + (a[1..] + [c] + b);
    assert a == [a[0]] + a[1..];
    ExtractNumbersSkip(a[0], a[1..] + [c] + b);
    ExtractNumbersSkip(a[0], a[1..]);
  }

  /** `a` is one digit run, ended by the non-digit `c`. */
  lemma ExtractNumbersSplitWhole(a: string, c: char, b: string)
    requires a != [] && AllDigits(a) && !IsDigit(c)
    ensures ExtractNumbers(a + [c] + b) == ExtractNumbers(a) + ExtractNumbers(b)
  {
    var s := a + [c] + b;
    TakeDigitsExtend(a, [c] + b);
    assert s == a + ([c] + b);
    assert s[|a|..] == [c] + b;
    ExtractNumbersDigitStart(s);
    ExtractNumbersSkip(c, b);
    ExtractNumbersRun(a);
  }

  /** A non-digit separates the numbers found on its two sides. */
  lemma {:induction false} ExtractNumbersSplit(a: string, c: char, b: string)
    requires !IsDigit(c)
    ensures ExtractNumbers(a + [c] + b) == ExtractNumbers(a) + ExtractNumbers(b)
    decreases |a|
  {
    if a == [] {
      assert a + [c] + b == [c] + b;
      ExtractNumbersSkip(c, b);
    } else if !IsDigit(a[0]) {
      ExtractNumbersSplit(a[1..], c, b);
      ExtractNumbersSplitSkip(a, c, b);
    } else if |TakeDigits(a)| < |a| {
      ExtractNumbersSplit(a[|TakeDigits(a)|..], c, b);
      ExtractNumbersSplitInner(a, c, b);
    } else {
      assert TakeDigits(a) == a;
      ExtractNumbersSplitWhole(a, c, b);
    }
  }

  /** A text with no digit yields no numbers. */
  lemma {:induction false} ExtractNumbersNone(s: string)
    requires forall i :: 0 <= i < |s| ==> !IsDigit(s[i])
    ensures ExtractNumbers(s) == []
  {
    if s != [] { ExtractNumbersNone(s[1..]); }
  }

  // ---------------------------------------------------------------------------
  // Keyword tables
  // ---------------------------------------------------------------------------

  /** The index of the first key contained in `text`, scanning `keys` in order. */
  function FirstHit(keys: seq<string>, text: string): (r: Option<nat>)
    ensures r.Some? ==> r.value < |keys| && Contains(text, keys[r.value]) &&
                        forall j :: 0 <= j < r.value ==> !Contains(text, keys[j])
    ensures r.None? ==> forall j :: 0 <= j < |keys| ==> !Contains(text, keys[j])
  {
    if keys == [] then None
    else if Contains(text, keys[0]) then Some(0)
    else match FirstHit(keys[1..], text)
      case None => None
      case Some(i) => Some(i + 1)
  }

  /** The first key the text contains is the one `FirstHit` reports. */
  lemma {:induction false} FirstHitIs(keys: seq<string>, text: string, j: nat)
    requires j < |keys| && Contains(text, keys[j])
    requires forall k :: 0 <= k < j ==> !Contains(text, keys[k])
    ensures FirstHit(keys, text) == Some(j)
  {
    if j > 0 {
      FirstHitIs(keys[1..], text, j - 1);
    }
  }

  const TIME_KEYWORDS: seq<string> := ["早上", "上午", "中午", "下午", "晚上", "夜里"]
  const TIME_TYPES: seq<string> := ["morning", "morning", "noon", "afternoon", "evening", "night"]

  /** `EntityHelper.extract_time_entities`: the hour is the first number when
      it is 0..23, and a time keyword or an hour sets `has_time`. */
  function TimeEntities(text: string): (e: Dict)
    ensures e.Keys == {"has_time", "time_type", "hour", "minute"}
    ensures e["minute"] == VNone
    ensures e["has_time"] == VBool(e["time_type"] != VNone || e["hour"] != VNone)
    ensures var numbers := ExtractNumbers(text);
      if |numbers| > 0 && numbers[0] <= 23 then e["hour"] == VInt(numbers[0]) else e["hour"] == VNone
  {
    var hit := FirstHit(TIME_KEYWORDS, text);
    var numbers := ExtractNumbers(text);
    var hourSet := |numbers| > 0 && numbers[0] <= 23;
    map[
      "has_time" := VBool(hit.Some? || hourSet),
      "time_type" := (if hit.Some? then VStr(TIME_TYPES[hit.value]) else VNone),
      "hour" := (if hourSet then VInt(numbers[0]) else VNone),
      "minute" := VNone]
  }

  /** The time type belongs to the first table keyword the text contains. */
  lemma TimeTypeFirstKeyword(text: string, j: nat)
    requires j < |TIME_KEYWORDS| && Contains(text, TIME_KEYWORDS[j])
    requires forall k :: 0 <= k < j ==> !Contains(text, TIME_KEYWORDS[k])
    ensures TimeEntities(text)["time_type"] == VStr(TIME_TYPES[j])
  {
    FirstHitIs(TIME_KEYWORDS, text, j);
  }

  /** Without a time keyword there is no time type. */
  lemma TimeTypeNone(text: string)
    requires forall k :: 0 <= k < |TIME_KEYWORDS| ==> !Contains(text, TIME_KEYWORDS[k])
    ensures TimeEntities(text)["time_type"] == VNone
  {
  }

  const CITIES: seq<string> :=
    ["北京", "上海", "广州", "深圳", "杭州", "成都", "重庆", "武汉", "西安", "南京", "天津", "苏州", "长沙", "郑州"]

  /** `EntityHelper.extract_location_entities`. */
  function LocationEntities(text: string): (e: Dict)
    ensures e.Keys == {"has_location", "location"}
    ensures e["has_location"] == VBool(e["location"] != VNone)
  {
    match FirstHit(CITIES, text)
    case None => map["has_location" := VBool(false), "location" := VNone]
    case Some(i) => map["has_location" := VBool(true), "location" := VStr(CITIES[i])]
  }

  /** The location is the first listed city the text contains. */
  lemma LocationFirstCity(text: string, j: nat)
    requires j < |CITIES| && Contains(text, CITIES[j])
    requires forall k :: 0 <= k < j ==> !Contains(text, CITIES[k])
    ensures LocationEntities(text)["location"] == VStr(CITIES[j])
  {
    FirstHitIs(CITIES, text, j);
  }

  /** Without a listed city the location is None. */
  lemma LocationNone(text: string)
    requires forall k :: 0 <= k < |CITIES| ==> !Contains(text, CITIES[k])
    ensures LocationEntities(text)["location"] == VNone
  {
  }

  // ---------------------------------------------------------------------------
  // extract_intent_hints
  // ---------------------------------------------------------------------------

  datatype IntentHints = IntentHints(
    hasCommand: bool,
    command: Option<string>,
    hasQuery: bool,
    queryType: Option<string>)

  const QUERY_KEYWORDS: seq<string> := ["天气", "温度", "下雨", "角色", "扮演"]
  const QUERY_TYPES: seq<string> := ["weather", "weather", "weather", "role_play", "role_play"]

  /** A command starts with an ASCII slash or a full-width exclamation mark. */
  predicate HasCommandMarker(text: string)
  {
    StartsWith(text, "/") || StartsWith(text, "！")
  }

  /** `EntityHelper.extract_intent_hints`. */
  function ExtractIntentHints(text: string): (h: IntentHints)
    ensures h.hasCommand <==> HasCommandMarker(text)
    ensures h.command.Some? ==> h.hasCommand
    ensures h.hasCommand ==> h.command == FirstToken(text[1..])
    ensures h.hasQuery <==> h.queryType.Some?
  {
    var hasCommand := HasCommandMarker(text);
    var query := FirstHit(QUERY_KEYWORDS, text);
    IntentHints(
      hasCommand,
      if hasCommand then FirstToken(text[1..]) else None,
      query.Some?,
      if query.Some? then Some(QUERY_TYPES[query.value]) else None)
  }

  /** The command is the first whitespace-separated word after the marker. */
  lemma IntentHintsCommand(word: string, rest: string)
    requires word != [] && forall i :: 0 <= i < |word| ==> !IsSpace(word[i])
    requires rest == [] || IsSpace(rest[0])
    ensures ExtractIntentHints("/" + word + rest).command == Some(word)
  {
    var text := "/" + word + rest;
    assert text[1..] == word + rest;
    assert TrimStart(word + rest) == word + rest;
    TakeTokenOf(word, rest);
  }

  lemma {:induction false} TakeTokenOf(word: string, rest: string)
    requires forall i :: 0 <= i < |word| ==> !IsSpace(word[i])
    requires rest == [] || IsSpace(rest[0])
    ensures TakeToken(word + rest) == word
    decreases |word|
  {
    if word == [] {
      assert word + rest == rest;
    } else {
      assert (word + rest)[1..] == word[1..] + rest;
      TakeTokenOf(word[1..], rest);
    }
  }
}
