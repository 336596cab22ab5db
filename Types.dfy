/**
  The values the conversation-flow interpreter works on: variables, the
  typebot graph (groups of blocks joined by edges), the session state, the
  reply pieces (messages, input, client-side actions, logs) and the
  collaborators whose internals are not part of this model.
 */
module Types {

  datatype Option<+T> = None | Some(value: T)

  /** JavaScript truthiness of an optional string: `undefined`, `null` and `''` are falsy. */
  predicate Truthy(o: Option<string>)
  {
    o.Some? && o.value != ""
  }

  /** `xs ?? []` */
  function OrEmpty<T>(o: Option<seq<T>>): seq<T>
  {
    if o.Some? then o.value else []
  }

  // ---------------------------------------------------------------- variables

  /** A variable's value after `?? null`: missing, a string, or a list whose items may be null. */
  datatype Value = Missing | Str(s: string) | List(items: seq<Option<string>>)

  datatype Variable = Variable(id: string, name: string, value: Value)

  // ---------------------------------------------------------------- JSON

  /** The result of the platform's `JSON.parse`; the grammar itself is not modelled. */
  datatype Json =
    | JNull
    | JBool(b: bool)
    | JNumber(n: int)
    | JString(s: string)
    | JArray(items: seq<Json>)
    | JObject(fields: map<string, Json>)

  /** What `safeJsonParse` hands back in `data`: a parsed value, or the raw text. */
  datatype JsonData = Parsed(json: Json) | Raw(text: string)

  // ---------------------------------------------------------------- graph

  datatype BubbleType = TextBubble | ImageBubble | VideoBubble | AudioBubble | EmbedBubble

  /** A text bubble's rich text: a list of nodes, each with children carrying text. */
  datatype RichChild = RichChild(text: Option<string>)
  datatype RichNode = RichNode(children: seq<RichChild>)

  datatype InputType =
    | TextInput | NumberInput | EmailInput | UrlInput | DateInput | PhoneInput
    | ChoiceInput | PictureChoiceInput | PaymentInput | RatingInput | FileInput

  /** The options of an input block that the interpreter itself reads. */
  datatype InputOptions = InputOptions(
    variableId: Option<string>,
    min: Option<string>,
    max: Option<string>,
    step: Option<string>)

  datatype HttpMethod = GET | POST | PUT | PATCH | DELETE | HEAD | CONNECT | OPTIONS | TRACE

  datatype KeyValue = KeyValue(key: Option<string>, value: Option<string>)

  /** Per-block webhook options; an absent boolean is `None`. */
  datatype WebhookOptions = WebhookOptions(
    isAdvancedConfig: Option<bool>,
    isCustomBody: Option<bool>,
    isExecutedOnClient: bool)

  datatype ResponseMapping = ResponseMapping(valueToExtract: string, variableId: Option<string>)

  /** A chat message template of the chat-completion block (role and content text). */
  datatype ChatMessage = ChatMessage(role: string, content: Option<string>)

  datatype ChatCompletionOptions = ChatCompletionOptions(
    credentialsId: Option<string>,
    model: string,
    messages: seq<ChatMessage>,
    temperature: Option<string>,
    responseMapping: seq<ResponseMapping>)

  /** Google Analytics options: event fields, each possibly holding `{{variables}}`. */
  datatype AnalyticsOptions = AnalyticsOptions(
    trackingId: Option<string>,
    category: Option<string>,
    action: Option<string>,
    eventLabel: Option<string>,
    value: Option<string>,
    sendTo: Option<string>)

  datatype IntegrationBlock =
    | WebhookIntegration(webhookId: string, webhookOptions: WebhookOptions)
    | OpenAIIntegration(chatOptions: ChatCompletionOptions)
    | AnalyticsIntegration(analyticsOptions: AnalyticsOptions)
    | OtherIntegration(integrationName: string)

  datatype BlockKind =
    | Bubble(bubbleType: BubbleType, richText: seq<RichNode>)
    | Input(inputType: InputType, inputOptions: InputOptions)
    | Logic(logicName: string)
    | Integration(integration: IntegrationBlock)
    | StartBlock

  datatype Block = Block(id: string, groupId: string, outgoingEdgeId: Option<string>, kind: BlockKind)

  datatype Group = Group(id: string, blocks: seq<Block>)

  datatype EdgeTarget = EdgeTarget(groupId: string, blockId: Option<string>)

  datatype Edge = Edge(id: string, to: EdgeTarget)

  datatype Typebot = Typebot(groups: seq<Group>, edges: seq<Edge>, variables: seq<Variable>)

  // ---------------------------------------------------------------- session

  /** The result record of the running conversation (its answers are not modelled). */
  datatype ResultInSession = ResultInSession(id: string)

  datatype BlockRef = BlockRef(groupId: string, blockId: string)

  datatype SessionState = SessionState(
    typebot: Typebot,
    result: Option<ResultInSession>,
    currentBlock: Option<BlockRef>,
    isStreamEnabled: bool)

  // ---------------------------------------------------------------- reply

  datatype LogStatus = Success | Error

  datatype BasicAuth = BasicAuth(username: Option<string>, password: Option<string>)

  /** A webhook with every variable resolved: what is sent, or handed to the client. */
  datatype ParsedWebhook = ParsedWebhook(
    url: string,
    basicAuth: BasicAuth,
    httpMethod: HttpMethod,
    headers: Option<map<string, string>>,
    body: Option<JsonData>,
    isJson: bool)

  /** The options object given to the HTTP client. */
  datatype HttpRequest = HttpRequest(
    url: string,
    httpMethod: HttpMethod,
    headers: Option<map<string, string>>,
    username: Option<string>,
    password: Option<string>,
    json: Option<JsonData>,
    form: Option<JsonData>,
    body: Option<JsonData>)

  datatype WebhookResponse = WebhookResponse(statusCode: int, data: JsonData)

  /** A log's `details.response`: the parsed body alone, or status and body. */
  datatype DetailResponse = BodyOnly(data: JsonData) | WithStatus(response: WebhookResponse)

  datatype LogDetails = LogDetails(statusCode: Option<int>, request: HttpRequest, response: DetailResponse)

  datatype Log = Log(status: LogStatus, description: string, details: Option<LogDetails>)

  /** The deep-parsed analytics options sent to the client. */
  datatype AnalyticsEvent = AnalyticsEvent(fields: map<string, Json>)

  datatype ActionKind =
    | SetVariable(expression: string)
    | StreamOpenAiChatCompletion(messages: seq<ChatMessage>, displayStream: bool)
    | WebhookToExecute(webhook: ParsedWebhook)
    | GoogleAnalytics(event: AnalyticsEvent)
    | OtherAction(name: string)

  /** A client-side action; `lastBubbleBlockId` ties it to the message it follows. */
  datatype Action = Action(kind: ActionKind, lastBubbleBlockId: Option<string>)

  /** An action the client must complete and report back before the walk may go on. */
  predicate IsBlocking(a: Action)
  {
    a.kind.SetVariable? || a.kind.StreamOpenAiChatCompletion? || a.kind.WebhookToExecute?
  }

  /** What a logic or integration executor returns; every field is optional. */
  datatype ExecResponse = ExecResponse(
    outgoingEdgeId: Option<string>,
    logs: Option<seq<Log>>,
    newSessionState: Option<SessionState>,
    clientSideActions: Option<seq<Action>>)

  /** A rendered bubble (the block with its variables substituted). */
  datatype Message = Message(blockId: string, rendered: string)

  /** A rendered input request. */
  datatype InputReply = InputReply(
    blockId: string,
    rendered: string,
    prefilledValue: Option<string>,
    min: Option<int>,
    max: Option<int>,
    step: Option<int>,
    runtimeOptions: Option<string>)

  // ---------------------------------------------------------------- collaborators

  /** Options of `deepParseVariables`. */
  datatype DeepParseOptions = DeepParseOptions(guessCorrectTypes: bool, removeEmptyStrings: bool)

  /**
    The helpers whose code is not part of this model, as total functions.
    Each is named after the source function it stands for.
   */
  datatype Collaborators = Collaborators(
    // variable substitution
    parseVariables: (seq<Variable>, string, bool) -> string,       // last argument: escapeForJson
    findUniqueVariableValue: (seq<Variable>, Option<string>) -> Value,
    parseBubbleBlock: (seq<Variable>, Block) -> Message,
    deepParseInput: (seq<Variable>, Block, Option<string>, Option<string>) -> InputReply,
    injectChoices: (SessionState, Block) -> InputReply,
    injectPictureChoices: (seq<Variable>, Block) -> InputReply,
    computePaymentOptions: (SessionState, Block) -> string,
    deepParseAnalytics: (seq<Variable>, AnalyticsOptions, DeepParseOptions) -> AnalyticsEvent,
    // numbers and JSON
    toNumber: string -> Option<int>,                              // Number(s); None for NaN
    dateParse: string -> Option<int>,                             // Date.parse(s); None for NaN
    jsonParse: string -> Option<Json>,                            // JSON.parse; None when it throws
    stringifyQuery: map<string, string> -> string,                // qs.stringify
    // executors and graph resolution
    executeLogic: (SessionState, Block) -> ExecResponse,
    executeIntegration: (SessionState, Block) -> ExecResponse,
    getNextGroup: (SessionState, string) -> Option<NextGroup>,
    // webhook helpers
    answersJson: (Typebot, ResultInSession) -> string,            // JSON.stringify(parseAnswers(..))
    sampleResultJson: (Typebot, string, seq<Variable>) -> string, // JSON.stringify(parseSampleResult(..))
    resumeWebhookExecution: (SessionState, Block, seq<Log>, WebhookResponse) -> ExecResponse,
    // chat-completion helpers
    decrypt: (string, string) -> string,
    parseChatCompletionMessages: (seq<Variable>, seq<ChatMessage>) -> ParsedMessages,
    updateVariables: (SessionState, seq<Variable>) -> SessionState,
    parseVariableNumber: (seq<Variable>, Option<string>) -> Option<int>,
    resumeChatCompletion: (SessionState, ChatCompletionOptions, Option<string>, seq<Log>, string, Option<int>) -> ExecResponse)

  /** What `getNextGroup` yields: the target group and maybe an updated session. */
  datatype NextGroup = NextGroup(group: Group, updatedContext: Option<SessionState>)

  /** What `parseChatCompletionMessages` yields. */
  datatype ParsedMessages = ParsedMessages(variablesTransformedToList: seq<Variable>, messages: seq<ChatMessage>)

  // ---------------------------------------------------------------- look-ups

  /** The index of the first element satisfying `p`, or -1 (`findIndex`). */
  function FindIndex<T>(xs: seq<T>, p: T -> bool): (r: int)
    ensures -1 <= r < |xs|
    ensures r == -1 <==> forall j :: 0 <= j < |xs| ==> !p(xs[j])
    ensures r >= 0 ==> p(xs[r]) && forall j :: 0 <= j < r ==> !p(xs[j])
  {
    if xs == [] then -1
    else if p(xs[0]) then 0
    else
      var k := FindIndex(xs[1..], p);
      assert forall j :: 1 <= j < |xs| ==> xs[j] == xs[1..][j - 1];
      if k == -1 then -1 else k + 1
  }

  /** The first element satisfying `p` (`find`). */
  function Find<T>(xs: seq<T>, p: T -> bool): (r: Option<T>)
    ensures r.None? <==> forall j :: 0 <= j < |xs| ==> !p(xs[j])
    ensures r.Some? ==> r.value in xs && p(r.value)
  {
    var i := FindIndex(xs, p);
    if i == -1 then None else Some(xs[i])
  }
}
