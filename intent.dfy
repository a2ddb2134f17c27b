// Rule-based intent recognition (src/core/intent.py).  A recognizer keeps its
// rules sorted by non-increasing priority together with the list of compiled
// (rule, pattern) pairs.  Recognition tries a command short-cut first, then
// the non-command rules in order, a keyword hit before a pattern hit, and
// falls back to CHAT.  Regular-expression search is the parameter `matches`.

module Intent {
  import opened Common
  import opened Sorting
  import opened RobotStates
  import TextHelpers

  datatype IntentRule = IntentRule(
    intent: IntentType,
    keywords: seq<string>,
    patterns: seq<string>,
    priority: int,
    description: string)

  /** `re.search(pattern, text)`, supplied by the caller. */
  type Matcher = (string, string) -> bool

  /** A compiled pattern remembers the rule it was compiled for. */
  type CompiledPattern = (IntentRule, string)

  const DEFAULT_INTENT_RULES: seq<IntentRule> := [
    IntentRule(Weather, ["天气", "气温", "温度", "下雨", "下雪", "晴天", "阴天", "刮风"],
               [".*天气.*", ".*(?:气温|温度).*", ".*(?:雨|雪|晴|阴|风).*"], 10, "天气查询意图"),
    IntentRule(RolePlay, ["扮演", "角色", "角色扮演", "变成", "当作"],
               ["扮演.*", "角色.*", "变成.*"], 15, "角色扮演意图"),
    IntentRule(ContextCreate, ["创建对话", "新建对话", "创建上下文", "开始对话"],
               ["创建.*(?:对话|上下文)", "新建.*对话"], 20, "创建上下文意图"),
    IntentRule(ContextJoin, ["加入对话", "进入对话", "加入上下文"],
               ["加入.*(?:对话|上下文)", "进入.*对话"], 20, "加入上下文意图"),
    IntentRule(ContextLeave, ["离开对话", "退出对话", "离开上下文"],
               ["(?:离开|退出).*(?:对话|上下文)"], 20, "离开上下文意图"),
    IntentRule(ContextEnd, ["结束对话", "终止对话", "结束上下文", "关闭对话"],
               ["(?:结束|终止|关闭).*(?:对话|上下文)"], 20, "结束上下文意图"),
    IntentRule(Command, ["/help", "/start", "/status", "/config", "/ban", "/unban"],
               ["/[a-zA-Z]+"], 30, "命令操作意图"),
    IntentRule(Chat, ["你好", "嗨", "在吗", "早上好", "晚安", "谢谢", "再见"],
               [".*"], 0, "普通聊天意图（默认）")
  ]

  // ---------------------------------------------------------------------------
  // Ordering and compiled patterns
  // ---------------------------------------------------------------------------

  /** Sorting ascending on this key is sorting by descending priority. */
  function PriorityKey(r: IntentRule): int { -r.priority }

  /** `sorted(rules, key=priority, reverse=True)`. */
  function SortByPriority(rules: seq<IntentRule>): seq<IntentRule>
  {
    SortBy(rules, PriorityKey)
  }

  predicate NonIncreasingPriority(rules: seq<IntentRule>)
  {
    forall i, j :: 0 <= i < j < |rules| ==> rules[i].priority >= rules[j].priority
  }

  /** Sorting by priority orders the rules, keeps every rule, and keeps rules
      of equal priority in their given order. */
  lemma SortByPriorityCorrect(rules: seq<IntentRule>)
    ensures NonIncreasingPriority(SortByPriority(rules))
    ensures multiset(SortByPriority(rules)) == multiset(rules)
    ensures forall k :: WithKey(SortByPriority(rules), PriorityKey, k) == WithKey(rules, PriorityKey, k)
  {
    SortByCorrect(rules, PriorityKey);
    var r := SortByPriority(rules);
    assert SortedBy(r, PriorityKey);
    forall i, j | 0 <= i < j < |r| ensures r[i].priority >= r[j].priority {
      assert PriorityKey(r[i]) <= PriorityKey(r[j]);
    }
  }

  /** Appending a rule to a sorted list and re-sorting places it after every
      rule of equal or higher priority and before every rule of lower priority. */
  lemma {:induction false} AddToSorted(rules: seq<IntentRule>, rule: IntentRule)
    requires NonIncreasingPriority(rules)
    ensures SortByPriority(rules + [rule]) == Insert(rules, rule, PriorityKey)
  {
    assert SortedBy(rules, PriorityKey);
    SortBySortedInput(rules, PriorityKey);
    assert (rules + [rule])[..|rules|] == rules;
  }

  /** The (rule, pattern) pairs compiled for `rule` from `patterns`, in order. */
  function CompilePatterns(rule: IntentRule, patterns: seq<string>): (c: seq<CompiledPattern>)
    ensures |c| == |patterns|
    ensures forall e :: e in c <==> e.0 == rule && e.1 in patterns
  {
    if patterns == [] then []
    else CompilePatterns(rule, patterns[..|patterns| - 1]) + [(rule, patterns[|patterns| - 1])]
  }

  /** The pairs compiled for one rule. */
  function CompileRule(rule: IntentRule): seq<CompiledPattern>
  {
    CompilePatterns(rule, rule.patterns)
  }

  /** Every pattern of every rule, in rule order. */
  function CompileAll(rules: seq<IntentRule>): seq<CompiledPattern>
  {
    if rules == [] then [] else CompileAll(rules[..|rules| - 1]) + CompileRule(rules[|rules| - 1])
  }

  lemma CompilePatternsStep(rule: IntentRule, patterns: seq<string>, j: nat)
    requires j < |patterns|
    ensures CompilePatterns(rule, patterns[..j + 1]) == CompilePatterns(rule, patterns[..j]) + [(rule, patterns[j])]
  {
    assert patterns[..j + 1][..j] == patterns[..j];
  }

  lemma CompileAllStep(rules: seq<IntentRule>, i: nat)
    requires i < |rules|
    ensures CompileAll(rules[..i + 1]) == CompileAll(rules[..i]) + CompileRule(rules[i])
  {
    assert rules[..i + 1][..i] == rules[..i];
  }

  /** Every compiled pair belongs to a rule of the list and one of its
      patterns, and every pattern of every rule is compiled. */
  ghost predicate CompiledFor(rules: seq<IntentRule>, compiled: seq<CompiledPattern>)
  {
    (forall e :: e in compiled ==> e.0 in rules && e.1 in e.0.patterns) &&
    (forall r, p :: r in rules && p in r.patterns ==> (r, p) in compiled)
  }

  lemma {:induction false} CompileAllFor(rules: seq<IntentRule>)
    ensures CompiledFor(rules, CompileAll(rules))
    decreases |rules|
  {
    if rules != [] {
      var init := rules[..|rules| - 1];
      var last := rules[|rules| - 1];
      CompileAllFor(init);
      var c := CompileAll(rules);
      assert c == CompileAll(init) + CompileRule(last);
      forall e | e in c ensures e.0 in rules && e.1 in e.0.patterns {
        if e in CompileAll(init) {
          assert e.0 in init;
        }
      }
      forall r, p | r in rules && p in r.patterns ensures (r, p) in c {
        if r in init {
          assert (r, p) in CompileAll(init);
        } else {
          assert r == last;
        }
      }
    }
  }

  // ---------------------------------------------------------------------------
  // Matching
  // ---------------------------------------------------------------------------

  /** `any(kw in text for kw in keywords)` */
  predicate AnyKeyword(keywords: seq<string>, text: string)
  {
    exists k :: 0 <= k < |keywords| && Contains(text, keywords[k])
  }

  /** `sum(1 for kw in keywords if kw in text)` */
  function MatchCount(keywords: seq<string>, text: string): (n: nat)
    ensures n <= |keywords|
    ensures n == 0 <==> !AnyKeyword(keywords, text)
  {
    if keywords == [] then 0
    else
      var rest := MatchCount(keywords[..|keywords| - 1], text);
      assert forall k :: 0 <= k < |keywords| - 1 ==> keywords[..|keywords| - 1][k] == keywords[k];
      rest + (if Contains(text, keywords[|keywords| - 1]) then 1 else 0)
  }

  /** `_calculate_keyword_confidence` in hundredths:
      `min(0.7 + min(0.1 * n, 0.2), 1.0)`, times 0.9 for a text of 20 or more characters. */
  function KeywordConfidence(text: string, keywords: seq<string>): (c: Confidence)
    ensures !AnyKeyword(keywords, text) ==> c == 0
    ensures AnyKeyword(keywords, text) && |text| < 20 ==> c in {80, 90}
    ensures AnyKeyword(keywords, text) && |text| >= 20 ==> c in {72, 81}
    ensures AnyKeyword(keywords, text) ==> (c == 80 || c == 72 <==> MatchCount(keywords, text) == 1)
  {
    var n := MatchCount(keywords, text);
    if n == 0 then 0
    else
      var bonus := if 10 * n < 20 then 10 * n else 20;
      var score := if 70 + bonus < 100 then 70 + bonus else 100;
      if |text| < 20 then score else score * 9 / 10
  }

  /** Some compiled pair of `rule` matches the text (`rule_ref == rule and pattern.search(text)`). */
  predicate PatternHit(compiled: seq<CompiledPattern>, rule: IntentRule, text: string, matches: Matcher)
  {
    exists k :: 0 <= k < |compiled| && compiled[k].0 == rule && matches(compiled[k].1, text)
  }

  /** With consistent compiled pairs, a rule's pattern hit is a match of one of its own patterns. */
  lemma PatternHitOwnPatterns(rules: seq<IntentRule>, compiled: seq<CompiledPattern>, rule: IntentRule,
                              text: string, matches: Matcher)
    requires CompiledFor(rules, compiled) && rule in rules
    ensures PatternHit(compiled, rule, text, matches) <==>
            exists p :: p in rule.patterns && matches(p, text)
  {
    if exists p :: p in rule.patterns && matches(p, text) {
      var p :| p in rule.patterns && matches(p, text);
      assert (rule, p) in compiled;
      var k :| 0 <= k < |compiled| && compiled[k] == (rule, p);
    }
    if PatternHit(compiled, rule, text, matches) {
      var k :| 0 <= k < |compiled| && compiled[k].0 == rule && matches(compiled[k].1, text);
      assert compiled[k] in compiled;
    }
  }

  /** The loop body of `_recognize_by_rules` fires for `rule`. */
  predicate RuleHits(rule: IntentRule, compiled: seq<CompiledPattern>, text: string, matches: Matcher)
  {
    (|rule.keywords| > 0 && AnyKeyword(rule.keywords, text)) ||
    (|rule.patterns| > 0 && PatternHit(compiled, rule, text, matches))
  }

  /** Some COMMAND rule has a keyword contained in the text. */
  predicate CommandKeywordHit(rules: seq<IntentRule>, text: string)
  {
    exists i :: 0 <= i < |rules| && rules[i].intent == Command && AnyKeyword(rules[i].keywords, text)
  }

  const CHAT_FALLBACK_CONFIDENCE: Confidence := 50
  const PATTERN_CONFIDENCE: Confidence := 85
  const COMMAND_CONFIDENCE: Confidence := 95

  /** The rule loop from index `i` on. */
  function ScanRules(rules: seq<IntentRule>, compiled: seq<CompiledPattern>, text: string,
                     matches: Matcher, i: nat): IntentResult
    requires i <= |rules|
    decreases |rules| - i
  {
    if i == |rules| then
      IntentResult(Chat, CHAT_FALLBACK_CONFIDENCE, text, map[], "No specific pattern matched, default to CHAT")
    else
      var rule := rules[i];
      if rule.intent == Command then ScanRules(rules, compiled, text, matches, i + 1)
      else if |rule.keywords| > 0 && AnyKeyword(rule.keywords, text) then
        IntentResult(rule.intent, KeywordConfidence(text, rule.keywords), text, map[],
                     "Keyword match: " + rule.description)
      else if |rule.patterns| > 0 && PatternHit(compiled, rule, text, matches) then
        IntentResult(rule.intent, PATTERN_CONFIDENCE, text, map[], "Pattern match: " + rule.description)
      else ScanRules(rules, compiled, text, matches, i + 1)
  }

  /** `_recognize_by_rules` on an already stripped text. */
  function RecognizeByRules(rules: seq<IntentRule>, compiled: seq<CompiledPattern>, text: string,
                            matches: Matcher): IntentResult
  {
    var hints := TextHelpers.ExtractIntentHints(text);
    if hints.hasCommand && CommandKeywordHit(rules, text) then
      var command := if hints.command.Some? then VStr(hints.command.value) else VNone;
      IntentResult(Command, COMMAND_CONFIDENCE, text, map["command" := command],
                   "Command detected: /" + Display(command))
    else ScanRules(rules, compiled, text, matches, 0)
  }

  /** `recognize_sync`. */
  function RecognizeSync(rules: seq<IntentRule>, compiled: seq<CompiledPattern>, text: string,
                         matches: Matcher): IntentResult
  {
    var t := Strip(text);
    if t == [] then IntentResult(Unknown, 0, t, map[], "Empty input")
    else RecognizeByRules(rules, compiled, t, matches)
  }

  // ---------------------------------------------------------------------------
  // What recognition promises
  // ---------------------------------------------------------------------------

  /** Blank input is UNKNOWN with confidence 0. */
  lemma RecognizeBlank(rules: seq<IntentRule>, compiled: seq<CompiledPattern>, text: string, matches: Matcher)
    requires AllSpace(text)
    ensures RecognizeSync(rules, compiled, text, matches).intent == Unknown
    ensures RecognizeSync(rules, compiled, text, matches).confidence == 0
  {
    StripEmptyIffBlank(text);
  }

  /** A command marker plus a COMMAND keyword wins over every other rule,
      whatever the priorities, and reports the first word after the marker. */
  lemma RecognizeCommand(rules: seq<IntentRule>, compiled: seq<CompiledPattern>, text: string,
                         matches: Matcher)
    requires var t := Strip(text);
      t != [] && TextHelpers.HasCommandMarker(t) && CommandKeywordHit(rules, t)
    ensures var r := RecognizeSync(rules, compiled, text, matches);
      r.intent == Command && r.confidence == 95 &&
      r.entities == map["command" := match FirstToken(Strip(text)[1..])
                                    case Some(w) => VStr(w)
                                    case None => VNone]
  {
    var t := Strip(text);
    var hints := TextHelpers.ExtractIntentHints(t);
    assert hints.hasCommand && hints.command == FirstToken(t[1..]);
    assert RecognizeSync(rules, compiled, text, matches) == RecognizeByRules(rules, compiled, t, matches);
  }

  /** The first non-command rule that hits decides the intent; a keyword hit
      gives keyword confidence, a pattern hit 0.85. */
  lemma {:induction false} ScanFirstHit(rules: seq<IntentRule>, compiled: seq<CompiledPattern>, text: string,
                                        matches: Matcher, from: nat, i: nat)
    requires from <= i < |rules|
    requires rules[i].intent != Command && RuleHits(rules[i], compiled, text, matches)
    requires forall j :: from <= j < i ==> rules[j].intent == Command || !RuleHits(rules[j], compiled, text, matches)
    ensures var r := ScanRules(rules, compiled, text, matches, from);
      r.intent == rules[i].intent &&
      r.confidence == (if |rules[i].keywords| > 0 && AnyKeyword(rules[i].keywords, text)
                       then KeywordConfidence(text, rules[i].keywords) else 85)
    decreases i - from
  {
    if from < i {
      assert rules[from].intent == Command || !RuleHits(rules[from], compiled, text, matches);
      ScanFirstHit(rules, compiled, text, matches, from + 1, i);
    }
  }

  /** When no non-command rule hits, the result is CHAT with confidence 0.5. */
  lemma {:induction false} ScanNoHit(rules: seq<IntentRule>, compiled: seq<CompiledPattern>, text: string,
                                     matches: Matcher, from: nat)
    requires from <= |rules|
    requires forall j :: from <= j < |rules| ==> rules[j].intent == Command || !RuleHits(rules[j], compiled, text, matches)
    ensures ScanRules(rules, compiled, text, matches, from).intent == Chat
    ensures ScanRules(rules, compiled, text, matches, from).confidence == 50
    decreases |rules| - from
  {
    if from < |rules| {
      assert rules[from].intent == Command || !RuleHits(rules[from], compiled, text, matches);
      ScanNoHit(rules, compiled, text, matches, from + 1);
    }
  }

  /** Recognition of a non-blank text without a command short-cut is decided
      by the first hitting non-command rule in list order. */
  lemma RecognizeFirstHit(rules: seq<IntentRule>, compiled: seq<CompiledPattern>, text: string,
                          matches: Matcher, i: nat)
    requires var t := Strip(text);
      t != [] && !(TextHelpers.HasCommandMarker(t) && CommandKeywordHit(rules, t))
    requires i < |rules| && rules[i].intent != Command && RuleHits(rules[i], compiled, Strip(text), matches)
    requires forall j :: 0 <= j < i ==> rules[j].intent == Command || !RuleHits(rules[j], compiled, Strip(text), matches)
    ensures RecognizeSync(rules, compiled, text, matches).intent == rules[i].intent
  {
    ScanFirstHit(rules, compiled, Strip(text), matches, 0, i);
  }

  /** The CHAT rule's pattern `.*` matches every text, so with the default
      rules the 0.5 fall-back is never reached: every non-blank, non-command
      text gets at least pattern confidence. */
  lemma {:induction false} CatchAllRuleHits(rules: seq<IntentRule>, compiled: seq<CompiledPattern>, text: string,
                                            matches: Matcher, from: nat, i: nat)
    requires from <= i < |rules| && rules[i].intent != Command
    requires ".*" in rules[i].patterns && (rules[i], ".*") in compiled && matches(".*", text)
    ensures ScanRules(rules, compiled, text, matches, from).confidence != 50
    decreases i - from
  {
    var k :| 0 <= k < |compiled| && compiled[k] == (rules[i], ".*");
    assert PatternHit(compiled, rules[i], text, matches);
    if from < i {
      var r := rules[from];
      if r.intent == Command || !RuleHits(r, compiled, text, matches) {
        CatchAllRuleHits(rules, compiled, text, matches, from + 1, i);
      } else if |r.keywords| > 0 && AnyKeyword(r.keywords, text) {
        assert KeywordConfidence(text, r.keywords) in {72, 80, 81, 90};
      }
    } else {
      if |rules[i].keywords| > 0 && AnyKeyword(rules[i].keywords, text) {
        assert KeywordConfidence(text, rules[i].keywords) in {72, 80, 81, 90};
      }
    }
  }

  // ---------------------------------------------------------------------------
  // The recognizer object
  // ---------------------------------------------------------------------------

  /** The rules a recognizer starts from: the given ones, or the defaults. */
  function GivenRules(custom: Option<seq<IntentRule>>): (r: seq<IntentRule>)
    ensures custom.Some? ==> r == custom.value
  {
    if custom.Some? then custom.value else DEFAULT_INTENT_RULES
  }

  /** The compilation loop of `IntentRecognizer.__init__`: every pattern of
      every rule, in rule order. */
  method CompileRules(sorted: seq<IntentRule>) returns (pairs: seq<CompiledPattern>)
    ensures pairs == CompileAll(sorted)
  {
    pairs := [];
    var i := 0;
    while i < |sorted|
      invariant 0 <= i <= |sorted|
      invariant pairs == CompileAll(sorted[..i])
    {
      var more := CompileRuleLoop(sorted[i]);
      CompileAllStep(sorted, i);
      pairs := pairs + more;
      i := i + 1;
    }
    assert sorted[..i] == sorted;
  }

  /** The inner loop: one compiled pair per pattern of `rule`, in pattern order. */
  method CompileRuleLoop(rule: IntentRule) returns (pairs: seq<CompiledPattern>)
    ensures pairs == CompileRule(rule)
  {
    pairs := [];
    var j := 0;
    while j < |rule.patterns|
      invariant 0 <= j <= |rule.patterns|
      invariant pairs == CompilePatterns(rule, rule.patterns[..j])
    {
      CompilePatternsStep(rule, rule.patterns, j);
      pairs := pairs + [(rule, rule.patterns[j])];
      j := j + 1;
    }
    assert rule.patterns[..j] == rule.patterns;
  }

  /** The rules sorted by priority and their compiled patterns: the state a
      recognizer starts in. */
  method Prepare(given: seq<IntentRule>) returns (sorted: seq<IntentRule>, pairs: seq<CompiledPattern>)
    ensures sorted == SortByPriority(given) && pairs == CompileAll(sorted)
    ensures NonIncreasingPriority(sorted) && CompiledFor(sorted, pairs)
  {
    sorted := SortByPriority(given);
    SortByPriorityCorrect(given);
    pairs := CompileRules(sorted);
    CompileAllFor(sorted);
  }

  class IntentRecognizer {
    var rules: seq<IntentRule>
    var compiled: seq<CompiledPattern>

    ghost predicate Valid()
      reads this
    {
      NonIncreasingPriority(rules) && CompiledFor(rules, compiled)
    }

    /** `IntentRecognizer.__init__`: sort the rules (the defaults when none are
        given) and compile every pattern of every rule, in rule order. */
    constructor (custom: Option<seq<IntentRule>>)
      ensures rules == SortByPriority(GivenRules(custom))
      ensures compiled == CompileAll(rules)
      ensures Valid()
    {
      var sorted, pairs := Prepare(GivenRules(custom));
      rules := sorted;
      compiled := pairs;
    }

    /** `recognize_sync` with this recognizer's rules. */
    function Recognize(text: string, matches: Matcher): IntentResult
      reads this
    {
      RecognizeSync(rules, compiled, text, matches)
    }

    /** `add_rule`: append, re-sort stably, then compile the new rule's patterns. */
    method AddRule(rule: IntentRule)
      requires Valid()
      modifies this
      ensures rules == Insert(old(rules), rule, PriorityKey)
      ensures compiled == old(compiled) + CompileRule(rule)
      ensures Valid()
    {
      AddToSorted(rules, rule);
      SortByPriorityCorrect(rules + [rule]);
      var sorted := SortByPriority(rules + [rule]);
      var more := CompileRuleLoop(rule);
      var pairs := compiled + more;
      AddRuleKeepsCompiled(old(rules), old(compiled), rule, sorted, pairs);
      rules := sorted;
      compiled := pairs;
    }

    /** `remove_rules_by_intent`: drop every rule and compiled pattern of `intent`. */
    method RemoveRulesByIntent(intent: IntentType) returns (removed: int)
      requires Valid()
      modifies this
      ensures rules == WithoutIntent(old(rules), intent)
      ensures compiled == CompiledWithoutIntent(old(compiled), intent)
      ensures removed == |old(rules)| - |rules|
      ensures Valid()
    {
      var originalCount := |rules|;
      RemovePreserves(rules, compiled, intent);
      rules := WithoutIntent(rules, intent);
      compiled := CompiledWithoutIntent(compiled, intent);
      removed := originalCount - |rules|;
    }
  }

  lemma AddRuleKeepsCompiled(rules: seq<IntentRule>, compiled: seq<CompiledPattern>, rule: IntentRule,
                             rules': seq<IntentRule>, compiled': seq<CompiledPattern>)
    requires CompiledFor(rules, compiled)
    requires multiset(rules') == multiset(rules + [rule])
    requires compiled' == compiled + CompileRule(rule)
    ensures CompiledFor(rules', compiled')
  {
    forall r | r in rules + [rule] ensures r in rules' {
      assert r in multiset(rules + [rule]);
    }
    forall r | r in rules' ensures r in rules + [rule] {
      assert r in multiset(rules');
    }
    forall e | e in compiled' ensures e.0 in rules' && e.1 in e.0.patterns {
      if e !in compiled {
        assert e in CompileRule(rule);
      }
    }
    forall r, p | r in rules' && p in r.patterns ensures (r, p) in compiled' {
      if r in rules {
        assert (r, p) in compiled;
      } else {
        assert (r, p) in CompileRule(rule);
      }
    }
  }

  /** `[r for r in rules if r.intent != intent]` */
  function WithoutIntent(rules: seq<IntentRule>, intent: IntentType): (r: seq<IntentRule>)
    ensures forall x :: x in r <==> x in rules && x.intent != intent
    ensures |r| <= |rules|
  {
    if rules == [] then []
    else WithoutIntent(rules[..|rules| - 1], intent) +
         (if rules[|rules| - 1].intent != intent then [rules[|rules| - 1]] else [])
  }

  function CompiledWithoutIntent(compiled: seq<CompiledPattern>, intent: IntentType): (r: seq<CompiledPattern>)
    ensures forall x :: x in r <==> x in compiled && x.0.intent != intent
  {
    if compiled == [] then []
    else CompiledWithoutIntent(compiled[..|compiled| - 1], intent) +
         (if compiled[|compiled| - 1].0.intent != intent then [compiled[|compiled| - 1]] else [])
  }

  /** The number of rules with `intent`. */
  function CountIntent(rules: seq<IntentRule>, intent: IntentType): nat
  {
    if rules == [] then 0
    else CountIntent(rules[..|rules| - 1], intent) + (if rules[|rules| - 1].intent == intent then 1 else 0)
  }

  /** Removal reports how many rules had the intent. */
  lemma {:induction false} RemovedCount(rules: seq<IntentRule>, intent: IntentType)
    ensures |rules| - |WithoutIntent(rules, intent)| == CountIntent(rules, intent)
    decreases |rules|
  {
    if rules != [] {
      RemovedCount(rules[..|rules| - 1], intent);
    }
  }

  lemma {:induction false} CountIntentNone(rules: seq<IntentRule>, intent: IntentType)
    requires forall x :: x in rules ==> x.intent != intent
    ensures CountIntent(rules, intent) == 0
    decreases |rules|
  {
    if rules != [] {
      assert rules[|rules| - 1] in rules;
      forall x | x in rules[..|rules| - 1] ensures x.intent != intent {
        assert x in rules;
      }
      CountIntentNone(rules[..|rules| - 1], intent);
    }
  }

  /** A second removal of the same intent removes nothing. */
  lemma RemoveTwice(rules: seq<IntentRule>, intent: IntentType)
    ensures WithoutIntent(WithoutIntent(rules, intent), intent) == WithoutIntent(rules, intent)
    ensures CountIntent(WithoutIntent(rules, intent), intent) == 0
  {
    var w := WithoutIntent(rules, intent);
    CountIntentNone(w, intent);
    RemovedCount(w, intent);
    WithoutIntentKeeps(w, intent);
  }

  lemma {:induction false} WithoutIntentKeeps(rules: seq<IntentRule>, intent: IntentType)
    requires forall x :: x in rules ==> x.intent != intent
    ensures WithoutIntent(rules, intent) == rules
    decreases |rules|
  {
    if rules != [] {
      assert rules[|rules| - 1] in rules;
      forall x | x in rules[..|rules| - 1] ensures x.intent != intent {
        assert x in rules;
      }
      WithoutIntentKeeps(rules[..|rules| - 1], intent);
      assert rules == rules[..|rules| - 1] + [rules[|rules| - 1]];
    }
  }

  lemma {:induction false} WithoutIntentOrdered(rules: seq<IntentRule>, intent: IntentType)
    requires NonIncreasingPriority(rules)
    ensures NonIncreasingPriority(WithoutIntent(rules, intent))
    decreases |rules|
  {
    if rules != [] {
      var init := rules[..|rules| - 1];
      var last := rules[|rules| - 1];
      WithoutIntentOrdered(init, intent);
      var w := WithoutIntent(init, intent);
      if last.intent != intent {
        var w' := w + [last];
        forall i, j | 0 <= i < j < |w'| ensures w'[i].priority >= w'[j].priority {
          if j == |w'| - 1 {
            assert w'[i] in w;
            var k :| 0 <= k < |init| && init[k] == w'[i];
            assert rules[k] == w'[i];
          }
        }
      }
    }
  }

  lemma RemovePreserves(rules: seq<IntentRule>, compiled: seq<CompiledPattern>, intent: IntentType)
    requires NonIncreasingPriority(rules) && CompiledFor(rules, compiled)
    ensures NonIncreasingPriority(WithoutIntent(rules, intent))
    ensures CompiledFor(WithoutIntent(rules, intent), CompiledWithoutIntent(compiled, intent))
  {
    WithoutIntentOrdered(rules, intent);
  }
}
