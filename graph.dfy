// The message-processing state machine (src/core/langgraph.py).  The graph
// runtime is replaced by an explicit transition table: each node transforms
// the robot state, each edge predicate picks the next node, and a run goes
// from the input processor to the end.  The intent classifier and the
// response generator are either injected callables (which may raise) or the
// defaults.

module Graph {
  import opened Common
  import opened RobotStates
  import TextHelpers
  import Intent

  /** The intent classifier: an injected callable, or the default recognizer. */
  datatype Classifier =
    | Injected(classify: string -> Outcome<IntentResult>)
    | DefaultRecognizer(rules: seq<Intent.IntentRule>, compiled: seq<Intent.CompiledPattern>,
                        matches: Intent.Matcher)

  /** The manager's two optional collaborators. */
  datatype GraphConfig = GraphConfig(
    classifier: Classifier,
    generator: Option<RobotState -> Outcome<string>>)

  datatype Node = AtInput | AtClassifier | AtContextLoader | AtGenerator | AtErrorHandler | AtEnd

  const INTENT_CLASSIFY_ERROR := "INTENT_CLASSIFY_ERROR"
  const CONTEXT_LOAD_ERROR := "CONTEXT_LOAD_ERROR"
  const RESPONSE_GENERATE_ERROR := "RESPONSE_GENERATE_ERROR"
  const GRAPH_EXECUTION_ERROR := "GRAPH_EXECUTION_ERROR"

  const SORRY_NOT_UNDERSTOOD := "抱歉，我无法理解您的意思。"
  const SORRY_CONTEXT := "抱歉，加载对话上下文时出现错误。"
  const SORRY_GENERATE := "抱歉，生成回复时出现错误。"
  const SORRY_GENERIC := "抱歉，处理您的请求时出现错误。"

  /** The four intents handled by the context loader. */
  predicate IsContextIntent(i: IntentType)
  {
    i == ContextCreate || i == ContextJoin || i == ContextLeave || i == ContextEnd
  }

  // ---------------------------------------------------------------------------
  // Nodes
  // ---------------------------------------------------------------------------

  /** `_input_processor_node`: clean the text, extract time entities overlaid
      with location entities, and enter PREPROCESSING. */
  function InputProcessorNode(s: RobotState): (r: RobotState)
    ensures r.messageContent == TextHelpers.CleanText(s.messageContent)
    ensures r.entities == TextHelpers.TimeEntities(r.messageContent) + TextHelpers.LocationEntities(r.messageContent)
    ensures r.processingStage == Preprocessing
    ensures "location" in r.entities && "hour" in r.entities
    ensures r.errorMessage == s.errorMessage && r.errorCode == s.errorCode && r.intent == s.intent
  {
    var cleaned := TextHelpers.CleanText(s.messageContent);
    s.(messageContent := cleaned,
       entities := TextHelpers.TimeEntities(cleaned) + TextHelpers.LocationEntities(cleaned),
       processingStage := Preprocessing)
  }

  /** The classifier's answer for a message, or the exception it raised. */
  function Classify(c: Classifier, text: string): Outcome<IntentResult>
  {
    match c
    case Injected(f) => f(text)
    case DefaultRecognizer(rules, compiled, matches) => Ok(Intent.RecognizeSync(rules, compiled, text, matches))
  }

  /** `_intent_classifier_node`: on success the intent and confidence are
      taken from the result and its entities are merged over the state's;
      on an exception the error is recorded, the intent becomes UNKNOWN and
      the stage FAILED. */
  function IntentClassifierNode(c: Classifier, s: RobotState): (r: RobotState)
    ensures Classify(c, s.messageContent).Ok? ==>
      var res := Classify(c, s.messageContent).value;
      r.intent == res.intent && r.intentConfidence == res.confidence &&
      r.entities == s.entities + res.entities && r.processingStage == IntentClassifying &&
      r.errorMessage == s.errorMessage && r.errorCode == s.errorCode
    ensures Classify(c, s.messageContent).Raised? ==>
      r.intent == Unknown && r.processingStage == Failed &&
      r.errorCode == Some(INTENT_CLASSIFY_ERROR) &&
      r.errorMessage == Classify(c, s.messageContent).error &&
      r.entities == s.entities
    ensures r.messageContent == s.messageContent && r.messageId == s.messageId && r.response == s.response
  {
    var s1 := s.(processingStage := IntentClassifying);
    match Classify(c, s1.messageContent)
    case Ok(res) =>
      s1.(intent := res.intent, intentConfidence := res.confidence, entities := s1.entities + res.entities)
    case Raised(e) =>
      s1.(errorMessage := e, errorCode := Some(INTENT_CLASSIFY_ERROR), processingStage := Failed, intent := Unknown)
  }

  /** `_context_loader_node`: context loading is not wired in, so the node
      passes through CONTEXT_LOADING to PROCESSING and nothing else changes. */
  function ContextLoaderNode(s: RobotState): (r: RobotState)
    ensures r.processingStage == Processing
    ensures r.(processingStage := s.processingStage) == s
  {
    s.(processingStage := ContextLoading).(processingStage := Processing)
  }

  /** `_generate_default_response`. */
  function DefaultResponse(s: RobotState): (r: string)
    ensures |r| > 0
  {
    match s.intent
    case Weather =>
      var location := if "location" in s.entities then Display(s.entities["location"]) else "未知地点";
      "正在查询" + location + "的天气信息..."
    case RolePlay => "角色扮演功能正在开发中..."
    case Chat => "你说：" + s.messageContent
    case _ => "我收到了你的消息。"
  }

  /** `_response_generator_node`: success stores the response and enters
      POSTPROCESSING; an exception records RESPONSE_GENERATE_ERROR, fails and
      answers with the fixed apology. */
  function ResponseGeneratorNode(g: Option<RobotState -> Outcome<string>>, s: RobotState): (r: RobotState)
    ensures var s1 := s.(processingStage := Processing);
      var out := if g.Some? then g.value(s1) else Ok(DefaultResponse(s1));
      (out.Ok? ==> r == s1.(response := out.value, processingStage := Postprocessing)) &&
      (out.Raised? ==> r == s1.(errorMessage := out.error, errorCode := Some(RESPONSE_GENERATE_ERROR),
                                processingStage := Failed, response := SORRY_GENERATE))
    ensures g.None? ==> r.processingStage == Postprocessing && |r.response| > 0
  {
    var s1 := s.(processingStage := Processing);
    var out := if g.Some? then g.value(s1) else Ok(DefaultResponse(s1));
    match out
    case Ok(text) => s1.(response := text, processingStage := Postprocessing)
    case Raised(e) =>
      s1.(errorMessage := e, errorCode := Some(RESPONSE_GENERATE_ERROR), processingStage := Failed,
          response := SORRY_GENERATE)
  }

  /** The user-facing apology for an error code. */
  function ErrorResponse(code: Option<string>): (r: string)
    ensures code == Some(INTENT_CLASSIFY_ERROR) ==> r == SORRY_NOT_UNDERSTOOD
    ensures code == Some(CONTEXT_LOAD_ERROR) ==> r == SORRY_CONTEXT
    ensures code == Some(RESPONSE_GENERATE_ERROR) ==> r == SORRY_GENERATE
    ensures code !in {Some(INTENT_CLASSIFY_ERROR), Some(CONTEXT_LOAD_ERROR), Some(RESPONSE_GENERATE_ERROR)} ==>
            r == SORRY_GENERIC
  {
    if code == Some(INTENT_CLASSIFY_ERROR) then SORRY_NOT_UNDERSTOOD
    else if code == Some(CONTEXT_LOAD_ERROR) then SORRY_CONTEXT
    else if code == Some(RESPONSE_GENERATE_ERROR) then SORRY_GENERATE
    else SORRY_GENERIC
  }

  /** `_error_handler_node`: always FAILED, with the apology for the error code. */
  function ErrorHandlerNode(s: RobotState): (r: RobotState)
    ensures r.processingStage == Failed && r.response == ErrorResponse(s.errorCode)
    ensures r.(processingStage := s.processingStage, response := s.response) == s
  {
    s.(processingStage := Failed, response := ErrorResponse(s.errorCode))
  }

  // ---------------------------------------------------------------------------
  // Edges
  // ---------------------------------------------------------------------------

  /** `_route_by_intent`: an error message takes precedence over the intent. */
  function RouteByIntent(s: RobotState): (t: RouteTarget)
    ensures s.errorMessage != "" <==> t == ErrorHandler
    ensures s.errorMessage == "" ==>
      (t == WeatherModule <==> s.intent == Weather) &&
      (t == RolePlayModule <==> s.intent == RolePlay) &&
      (t == ContextHandler <==> IsContextIntent(s.intent)) &&
      (t == ChatModule <==> !(s.intent == Weather || s.intent == RolePlay || IsContextIntent(s.intent)))
  {
    if s.errorMessage != "" then ErrorHandler
    else if s.intent == Weather then WeatherModule
    else if s.intent == RolePlay then RolePlayModule
    else if IsContextIntent(s.intent) then ContextHandler
    else ChatModule
  }

  /** The node each route target is wired to. */
  function TargetNode(t: RouteTarget): Node
  {
    match t
    case ContextHandler => AtContextLoader
    case ErrorHandler => AtErrorHandler
    case _ => AtGenerator
  }

  /** `_should_end`: both of its branches answer "end". */
  function ShouldEnd(s: RobotState): Node { AtEnd }

  /** The transition table: the node that follows `n` in state `s`. */
  function NextNode(n: Node, s: RobotState): (m: Node)
    ensures n == AtInput ==> (m == AtErrorHandler <==> s.errorMessage != "") && m in {AtClassifier, AtErrorHandler}
    ensures n == AtClassifier ==>
      (m == AtErrorHandler <==> s.errorMessage != "") &&
      (m == AtContextLoader <==> s.errorMessage == "" && IsContextIntent(s.intent)) &&
      (m == AtGenerator <==> s.errorMessage == "" && !IsContextIntent(s.intent))
    ensures n == AtContextLoader ==> (m == AtErrorHandler <==> s.errorMessage != "") && m in {AtGenerator, AtErrorHandler}
    ensures n in {AtGenerator, AtErrorHandler, AtEnd} ==> m == AtEnd
    ensures n != AtEnd ==> Rank(m) < Rank(n)
  {
    match n
    case AtInput => if s.errorMessage != "" then AtErrorHandler else AtClassifier
    case AtClassifier => TargetNode(RouteByIntent(s))
    case AtContextLoader => if s.errorMessage != "" then AtErrorHandler else AtGenerator
    case AtGenerator => ShouldEnd(s)
    case AtErrorHandler => AtEnd
    case AtEnd => AtEnd
  }

  /** How many nodes at most remain after `n`. */
  function Rank(n: Node): nat
  {
    match n
    case AtInput => 4
    case AtClassifier => 3
    case AtContextLoader => 2
    case AtGenerator => 1
    case AtErrorHandler => 1
    case AtEnd => 0
  }

  /** The fields no node changes. */
  predicate SameIdentity(a: RobotState, b: RobotState)
  {
    a.messageId == b.messageId && a.userId == b.userId && a.groupId == b.groupId &&
    a.createdAt == b.createdAt && a.contextId == b.contextId && a.contextType == b.contextType
  }

  /** Executes node `n`. */
  function Apply(cfg: GraphConfig, n: Node, s: RobotState): (r: RobotState)
    ensures SameIdentity(r, s)
    ensures n == AtGenerator ==> r.processingStage in {Postprocessing, Failed}
    ensures n == AtErrorHandler ==> r.processingStage == Failed && |r.response| > 0
    ensures n == AtGenerator && cfg.generator.None? ==> |r.response| > 0
  {
    match n
    case AtInput => InputProcessorNode(s)
    case AtClassifier => IntentClassifierNode(cfg.classifier, s)
    case AtContextLoader => ContextLoaderNode(s)
    case AtGenerator => ResponseGeneratorNode(cfg.generator, s)
    case AtErrorHandler => ErrorHandlerNode(s)
    case AtEnd => s
  }

  /** Runs the graph from node `n` to the end. */
  function Run(cfg: GraphConfig, n: Node, s: RobotState): RobotState
    decreases Rank(n)
  {
    if n == AtEnd then s
    else
      var s' := Apply(cfg, n, s);
      Run(cfg, NextNode(n, s'), s')
  }

  /** `process`: after a run that returns the stage is COMPLETED; when the
      graph runtime raises, the incoming state is returned FAILED with
      GRAPH_EXECUTION_ERROR. */
  function Process(cfg: GraphConfig, s: RobotState, runtimeError: Option<string>): (r: RobotState)
    ensures r.messageId == s.messageId && r.contextId == s.contextId && r.contextType == s.contextType
    ensures runtimeError.None? ==> r.processingStage == Completed && IsTerminalState(r)
    ensures runtimeError.Some? ==>
      r == s.(errorMessage := runtimeError.value, errorCode := Some(GRAPH_EXECUTION_ERROR), processingStage := Failed)
  {
    match runtimeError
    case None =>
      RunKeepsIdentity(cfg, AtInput, s);
      Run(cfg, AtInput, s).(processingStage := Completed)
    case Some(e) =>
      s.(errorMessage := e, errorCode := Some(GRAPH_EXECUTION_ERROR), processingStage := Failed)
  }

  // ---------------------------------------------------------------------------
  // What a run promises
  // ---------------------------------------------------------------------------

  lemma {:induction false} RunKeepsIdentity(cfg: GraphConfig, n: Node, s: RobotState)
    ensures SameIdentity(Run(cfg, n, s), s)
    decreases Rank(n)
  {
    if n != AtEnd {
      var s' := Apply(cfg, n, s);
      var m := NextNode(n, s');
      RunStep(cfg, n, s, s', m);
      RunKeepsIdentity(cfg, m, s');
    }
  }

  /** A run ends in the error handler (FAILED), or after the generator
      (POSTPROCESSING, or FAILED when it raised). */
  lemma {:induction false} RunSettles(cfg: GraphConfig, n: Node, s: RobotState)
    requires n != AtEnd
    ensures Run(cfg, n, s).processingStage in {Postprocessing, Failed}
    decreases Rank(n)
  {
    var s' := Apply(cfg, n, s);
    var m := NextNode(n, s');
    RunStep(cfg, n, s, s', m);
    if m != AtEnd {
      RunSettles(cfg, m, s');
    } else {
      assert n in {AtGenerator, AtErrorHandler};
    }
  }

  /** A run with the default generator always produces a non-empty response. */
  lemma {:induction false} RunResponds(cfg: GraphConfig, n: Node, s: RobotState)
    requires n != AtEnd && cfg.generator.None?
    ensures |Run(cfg, n, s).response| > 0
    decreases Rank(n)
  {
    var s' := Apply(cfg, n, s);
    var m := NextNode(n, s');
    RunStep(cfg, n, s, s', m);
    if m != AtEnd {
      RunResponds(cfg, m, s');
    } else {
      assert n in {AtGenerator, AtErrorHandler};
    }
  }

  /** One step of a run. */
  lemma RunStep(cfg: GraphConfig, n: Node, s: RobotState, s': RobotState, m: Node)
    requires n != AtEnd && s' == Apply(cfg, n, s) && m == NextNode(n, s')
    ensures Run(cfg, n, s) == Run(cfg, m, s')
  {
  }

  /** A message classified as WEATHER, by a classifier that reports no
      location of its own, is answered with the weather notice; with no known
      city in the text the location entity is None, which renders as "None". */
  lemma WeatherWithoutCity(cfg: GraphConfig, s: RobotState)
    requires cfg.generator.None? && s.errorMessage == ""
    requires var t := TextHelpers.CleanText(s.messageContent);
      Classify(cfg.classifier, t).Ok? && Classify(cfg.classifier, t).value.intent == Weather &&
      "location" !in Classify(cfg.classifier, t).value.entities &&
      (forall j :: 0 <= j < |TextHelpers.CITIES| ==> !Contains(t, TextHelpers.CITIES[j]))
    ensures Run(cfg, AtInput, s).response == "正在查询None的天气信息..."
  {
    var t := TextHelpers.CleanText(s.messageContent);
    TextHelpers.LocationNone(t);
    var s1 := InputProcessorNode(s);
    InputLocation(s);
    RunStep(cfg, AtInput, s, s1, AtClassifier);
    var s2 := IntentClassifierNode(cfg.classifier, s1);
    assert s2.entities["location"] == VNone;
    RunStep(cfg, AtClassifier, s1, s2, AtGenerator);
    var s3 := ResponseGeneratorNode(None, s2);
    RunStep(cfg, AtGenerator, s2, s3, AtEnd);
    WeatherResponseNone(s2.(processingStage := Processing));
  }

  /** The default recognizer reports no location, so it qualifies for the lemma above. */
  lemma DefaultRecognizerNoLocation(rules: seq<Intent.IntentRule>, compiled: seq<Intent.CompiledPattern>,
                                    matches: Intent.Matcher, text: string)
    ensures "location" !in Classify(DefaultRecognizer(rules, compiled, matches), text).value.entities
  {
    RecognizeEntities(rules, compiled, text, matches);
  }

  lemma WeatherResponseNone(s: RobotState)
    requires s.intent == Weather && "location" in s.entities && s.entities["location"] == VNone
    ensures DefaultResponse(s) == "正在查询None的天气信息..."
  {
  }

  /** The location entity after input processing is the one extracted from the cleaned text. */
  lemma InputLocation(s: RobotState)
    ensures var r := InputProcessorNode(s);
      "location" in r.entities &&
      r.entities["location"] == TextHelpers.LocationEntities(TextHelpers.CleanText(s.messageContent))["location"]
  {
  }

  /** The default recognizer reports no entity other than `command`. */
  lemma RecognizeEntities(rules: seq<Intent.IntentRule>, compiled: seq<Intent.CompiledPattern>, text: string,
                          matches: Intent.Matcher)
    ensures Intent.RecognizeSync(rules, compiled, text, matches).entities.Keys <= {"command"}
  {
    var t := Strip(text);
    if t != [] {
      ScanEntities(rules, compiled, t, matches, 0);
    }
  }

  lemma {:induction false} ScanEntities(rules: seq<Intent.IntentRule>, compiled: seq<Intent.CompiledPattern>,
                                        text: string, matches: Intent.Matcher, i: nat)
    requires i <= |rules|
    ensures Intent.ScanRules(rules, compiled, text, matches, i).entities == map[]
    decreases |rules| - i
  {
    if i < |rules| {
      ScanEntities(rules, compiled, text, matches, i + 1);
    }
  }

  /** An injected classifier that raises with an empty message leaves the
      error message empty, so routing ignores the failure: the intent is
      UNKNOWN, the run continues to the generator and ends in POSTPROCESSING
      while still carrying INTENT_CLASSIFY_ERROR. */
  lemma SilentClassifierFailure(f: string -> Outcome<IntentResult>, s: RobotState)
    requires s.errorMessage == ""
    requires f(TextHelpers.CleanText(s.messageContent)) == Raised("")
    ensures var r := Run(GraphConfig(Injected(f), None), AtInput, s);
      r.processingStage == Postprocessing && r.errorCode == Some(INTENT_CLASSIFY_ERROR) &&
      r.intent == Unknown && r.response == "我收到了你的消息。"
  {
    var cfg := GraphConfig(Injected(f), None);
    var s1 := InputProcessorNode(s);
    RunStep(cfg, AtInput, s, s1, AtClassifier);
    SilentFromClassifier(f, s1);
  }

  /** The part of the run above that starts at the classifier. */
  lemma SilentFromClassifier(f: string -> Outcome<IntentResult>, s1: RobotState)
    requires s1.errorMessage == "" && f(s1.messageContent) == Raised("")
    ensures var r := Run(GraphConfig(Injected(f), None), AtClassifier, s1);
      r.processingStage == Postprocessing && r.errorCode == Some(INTENT_CLASSIFY_ERROR) &&
      r.intent == Unknown && r.response == "我收到了你的消息。"
  {
    var cfg := GraphConfig(Injected(f), None);
    var s2 := IntentClassifierNode(cfg.classifier, s1);
    assert s2.errorMessage == "" && s2.intent == Unknown && s2.errorCode == Some(INTENT_CLASSIFY_ERROR);
    RunStep(cfg, AtClassifier, s1, s2, AtGenerator);
    UnknownFallback(cfg, s2);
  }

  /** Without a generator, an UNKNOWN intent gets the plain acknowledgement. */
  lemma UnknownFallback(cfg: GraphConfig, s: RobotState)
    requires cfg.generator.None? && s.intent == Unknown
    ensures var r := Run(cfg, AtGenerator, s);
      r.processingStage == Postprocessing && r.errorCode == s.errorCode &&
      r.intent == Unknown && r.response == "我收到了你的消息。"
  {
    var r := ResponseGeneratorNode(None, s);
    assert DefaultResponse(s.(processingStage := Processing)) == "我收到了你的消息。";
    RunStep(cfg, AtGenerator, s, r, AtEnd);
  }

  /** A classifier failure with a message reaches the error handler, which
      answers that the message was not understood. */
  lemma ClassifierFailureHandled(cfg: GraphConfig, s: RobotState, e: string)
    requires s.errorMessage == "" && e != ""
    requires Classify(cfg.classifier, TextHelpers.CleanText(s.messageContent)) == Raised(e)
    ensures var r := Run(cfg, AtInput, s);
      r.processingStage == Failed && r.response == SORRY_NOT_UNDERSTOOD && r.intent == Unknown
  {
    var s1 := InputProcessorNode(s);
    RunStep(cfg, AtInput, s, s1, AtClassifier);
    var s2 := IntentClassifierNode(cfg.classifier, s1);
    RunStep(cfg, AtClassifier, s1, s2, AtErrorHandler);
    var s3 := ErrorHandlerNode(s2);
    RunStep(cfg, AtErrorHandler, s2, s3, AtEnd);
  }

  /** Two states that agree on intent, location entity and text get the same
      default response; only CHAT depends on the text. */
  lemma DefaultResponseDepends(a: RobotState, b: RobotState)
    requires a.intent == b.intent
    requires ("location" in a.entities <==> "location" in b.entities)
    requires "location" in a.entities ==> a.entities["location"] == b.entities["location"]
    requires a.intent == Chat ==> a.messageContent == b.messageContent
    ensures DefaultResponse(a) == DefaultResponse(b)
  {
  }
}
