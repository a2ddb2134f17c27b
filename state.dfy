// The state record that flows through the message-processing graph
// (src/core/state.py): intent and routing enumerations, processing stages,
// the robot state, the intent-recognition result and the state utilities.

module RobotStates {
  import opened Common

  datatype IntentType =
    | Chat | Weather | RolePlay
    | ContextCreate | ContextJoin | ContextLeave | ContextEnd
    | UserBan | Command | Unknown

  datatype RouteTarget =
    ChatModule | WeatherModule | RolePlayModule | ContextHandler | ResponseGenerator | ErrorHandler | EndTarget

  datatype ProcessingStage =
    Received | Preprocessing | IntentClassifying | ContextLoading | Processing | Postprocessing | Completed | Failed

  /** A confidence in hundredths; `ge=0.0, le=1.0` becomes 0..100. */
  type Confidence = c: int | 0 <= c <= 100

  datatype RobotState = RobotState(
    messageId: string,
    userId: string,
    userName: string,
    groupId: Option<string>,
    messageContent: string,
    messageType: string,
    intent: IntentType,
    intentConfidence: Confidence,
    routeTarget: RouteTarget,
    processingStage: ProcessingStage,
    contextId: Option<string>,
    contextType: Option<string>,
    response: string,
    needResponse: bool,
    errorMessage: string,
    errorCode: Option<string>,
    retryCount: int,
    createdAt: int,
    updatedAt: int,
    entities: Dict)

  datatype IntentResult = IntentResult(
    intent: IntentType,
    confidence: Confidence,
    rawInput: string,
    entities: Dict,
    reasoning: string)

  /** `create_initial_state`: the arguments copied in, every other field at its default. */
  function CreateInitialState(messageId: string, userId: string, messageContent: string,
                              userName: string, groupId: Option<string>, messageType: string,
                              now: int): (s: RobotState)
    ensures s.messageId == messageId && s.userId == userId && s.messageContent == messageContent
    ensures s.userName == userName && s.groupId == groupId && s.messageType == messageType
    ensures s.processingStage == Received && s.intent == Unknown && s.intentConfidence == 0
    ensures s.errorMessage == "" && s.errorCode == None && s.response == "" && s.needResponse
    ensures s.contextId == None && s.contextType == None && s.entities == map[]
    ensures !IsTerminalState(s)
  {
    RobotState(messageId, userId, userName, groupId, messageContent, messageType,
               Unknown, 0, ChatModule, Received, None, None, "", true, "", None, 0,
               now, now, map[])
  }

  /** The keyword arguments of `clone_state`; each field may be given at most once. */
  datatype StateUpdates = StateUpdates(
    messageContent: Option<string>,
    intent: Option<IntentType>,
    intentConfidence: Option<Confidence>,
    routeTarget: Option<RouteTarget>,
    processingStage: Option<ProcessingStage>,
    contextId: Option<Option<string>>,
    response: Option<string>,
    errorMessage: Option<string>,
    errorCode: Option<Option<string>>,
    entities: Option<Dict>)

  const NoUpdates := StateUpdates(None, None, None, None, None, None, None, None, None, None)

  function Pick<T>(update: Option<T>, current: T): T
  {
    if update.Some? then update.value else current
  }

  /** `clone_state`: a copy with the given fields replaced and `updated_at` refreshed. */
  function CloneState(s: RobotState, u: StateUpdates, now: int): (r: RobotState)
    ensures r.updatedAt == now && r.createdAt == s.createdAt
    ensures r.messageId == s.messageId && r.userId == s.userId && r.groupId == s.groupId
    ensures u.processingStage.None? ==> r.processingStage == s.processingStage
    ensures u.processingStage.Some? ==> r.processingStage == u.processingStage.value
    ensures u.response.None? ==> r.response == s.response
    ensures u.errorCode.None? ==> r.errorCode == s.errorCode
  {
    s.(messageContent := Pick(u.messageContent, s.messageContent),
       intent := Pick(u.intent, s.intent),
       intentConfidence := Pick(u.intentConfidence, s.intentConfidence),
       routeTarget := Pick(u.routeTarget, s.routeTarget),
       processingStage := Pick(u.processingStage, s.processingStage),
       contextId := Pick(u.contextId, s.contextId),
       response := Pick(u.response, s.response),
       errorMessage := Pick(u.errorMessage, s.errorMessage),
       errorCode := Pick(u.errorCode, s.errorCode),
       entities := Pick(u.entities, s.entities),
       updatedAt := now)
  }

  /** A clone without updates differs from the original only in `updated_at`. */
  lemma CloneWithoutUpdates(s: RobotState, now: int)
    ensures CloneState(s, NoUpdates, now) == s.(updatedAt := now)
  {
  }

  /** `is_terminal_state`. */
  predicate IsTerminalState(s: RobotState)
  {
    s.processingStage == Completed || s.processingStage == Failed
  }

  /** Exactly two of the eight stages are terminal. */
  lemma TerminalStages(s: RobotState)
    ensures IsTerminalState(s) <==> s.processingStage in {Completed, Failed}
    ensures (s.processingStage in {Received, Preprocessing, IntentClassifying, ContextLoading,
                                   Processing, Postprocessing}) ==> !IsTerminalState(s)
  {
  }
}
