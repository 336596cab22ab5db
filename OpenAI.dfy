/**
  The OpenAI chat-completion executor: credential checks, message parsing,
  the choice between streaming on the client and calling the API from the
  server, and the look-up of the block that follows, used to decide whether
  the streamed answer is shown as it arrives.
 */
module OpenAI {
  import opened Types

  // ---------------------------------------------------------------- look-ups

  predicate HasBlock(group: Group, blockId: string)
  {
    exists b :: b in group.blocks && b.id == blockId
  }

  /**
    `getNextBlock`: the block after `blockId` in its group; for the group's
    last block, the target of its outgoing edge (the edge's block, or the
    target group's first block). Nothing when the block is in no group, has
    no outgoing edge, or the edge or its group cannot be found.
   */
  function GetNextBlock(typebot: Typebot, blockId: string): (r: Option<Block>)
    ensures (forall g :: g in typebot.groups ==> !HasBlock(g, blockId)) ==> r.None?
    ensures r.Some? ==> exists g :: g in typebot.groups && r.value in g.blocks
  {
    match Find(typebot.groups, (g: Group) => HasBlock(g, blockId))
    case None => None
    case Some(group) =>
      var blockIndex := FindIndex(group.blocks, (b: Block) => b.id == blockId);
      if blockIndex + 1 < |group.blocks| then Some(group.blocks[blockIndex + 1])
      else
        FollowOutgoing(typebot, if 0 <= blockIndex then group.blocks[blockIndex].outgoingEdgeId else None)
  }

  /** The tail of `getNextBlock`: nothing without an edge id or an edge with that id, else the edge's target. */
  function FollowOutgoing(typebot: Typebot, outgoingEdgeId: Option<string>): (r: Option<Block>)
    ensures !Truthy(outgoingEdgeId) ==> r.None?
    ensures Truthy(outgoingEdgeId) && (forall e :: 0 <= e < |typebot.edges| ==> typebot.edges[e].id != outgoingEdgeId.value) ==> r.None?
    ensures r.Some? ==> exists g :: g in typebot.groups && r.value in g.blocks
  {
    if !Truthy(outgoingEdgeId) then None
    else match Find(typebot.edges, (e: Edge) => e.id == outgoingEdgeId.value)
      case None => None
      case Some(edge) => EdgeTarget(typebot, edge)
  }

  /**
    Where an edge leads: nothing when its group is missing; else the first
    block of that group with the edge's block id when it names one, or the
    group's first block.
   */
  function EdgeTarget(typebot: Typebot, edge: Edge): (r: Option<Block>)
    ensures (forall g :: 0 <= g < |typebot.groups| ==> typebot.groups[g].id != edge.to.groupId) ==> r.None?
    ensures r.Some? ==> exists g :: g in typebot.groups && r.value in g.blocks
  {
    match Find(typebot.groups, (g: Group) => g.id == edge.to.groupId)
    case None => None
    case Some(connectedGroup) =>
      if Truthy(edge.to.blockId) then Find(connectedGroup.blocks, (b: Block) => b.id == edge.to.blockId.value)
      else if connectedGroup.blocks != [] then Some(connectedGroup.blocks[0])
      else None
  }

  /** Block `i` of group `gi` is where `getNextBlock` finds its id: the first group holding it, the first position. */
  predicate LocatedAt(typebot: Typebot, gi: int, i: int)
  {
    0 <= gi < |typebot.groups| && 0 <= i < |typebot.groups[gi].blocks| &&
    (forall g :: 0 <= g < gi ==> !HasBlock(typebot.groups[g], typebot.groups[gi].blocks[i].id)) &&
    (forall j :: 0 <= j < i ==> typebot.groups[gi].blocks[j].id != typebot.groups[gi].blocks[i].id)
  }

  /** Edge `ei` is the first edge with id `id`. */
  predicate FirstEdge(typebot: Typebot, ei: int, id: string)
  {
    0 <= ei < |typebot.edges| && typebot.edges[ei].id == id &&
    forall j :: 0 <= j < ei ==> typebot.edges[j].id != id
  }

  /** Group `ti` is the first group with id `id`. */
  predicate FirstGroup(typebot: Typebot, ti: int, id: string)
  {
    0 <= ti < |typebot.groups| && typebot.groups[ti].id == id &&
    forall g :: 0 <= g < ti ==> typebot.groups[g].id != id
  }

  /** The last block of group `gi`, located there. */
  predicate LastLocated(typebot: Typebot, gi: int)
  {
    0 <= gi < |typebot.groups| && |typebot.groups[gi].blocks| > 0 &&
    LocatedAt(typebot, gi, |typebot.groups[gi].blocks| - 1)
  }

  function LastBlock(typebot: Typebot, gi: int): Block
    requires LastLocated(typebot, gi)
  {
    typebot.groups[gi].blocks[|typebot.groups[gi].blocks| - 1]
  }

  lemma LocateBlock(typebot: Typebot, gi: int, i: int)
    requires LocatedAt(typebot, gi, i)
    ensures var blockId := typebot.groups[gi].blocks[i].id;
      Find(typebot.groups, (g: Group) => HasBlock(g, blockId)) == Some(typebot.groups[gi]) &&
      FindIndex(typebot.groups[gi].blocks, (b: Block) => b.id == blockId) == i
  {
    var group := typebot.groups[gi];
    var blockId := group.blocks[i].id;
    assert HasBlock(group, blockId) by { assert group.blocks[i] in group.blocks; }
    assert FindIndex(typebot.groups, (g: Group) => HasBlock(g, blockId)) == gi;
  }

  lemma LocateEdge(typebot: Typebot, ei: int, id: string)
    requires FirstEdge(typebot, ei, id)
    ensures Find(typebot.edges, (e: Edge) => e.id == id) == Some(typebot.edges[ei])
  {
    assert FindIndex(typebot.edges, (e: Edge) => e.id == id) == ei;
  }

  lemma LocateGroup(typebot: Typebot, ti: int, id: string)
    requires FirstGroup(typebot, ti, id)
    ensures Find(typebot.groups, (g: Group) => g.id == id) == Some(typebot.groups[ti])
  {
    assert FindIndex(typebot.groups, (g: Group) => g.id == id) == ti;
  }

  /** Inside a group, the next block is the one right after. */
  lemma NextInGroup(typebot: Typebot, gi: int, i: int)
    requires LocatedAt(typebot, gi, i) && i < |typebot.groups[gi].blocks| - 1
    ensures GetNextBlock(typebot, typebot.groups[gi].blocks[i].id) == Some(typebot.groups[gi].blocks[i + 1])
  {
    LocateBlock(typebot, gi, i);
  }

  /** After a group's last block, `getNextBlock` follows that block's outgoing edge. */
  lemma LastBlockTakesEdge(typebot: Typebot, gi: int)
    requires LastLocated(typebot, gi)
    ensures GetNextBlock(typebot, LastBlock(typebot, gi).id) == FollowOutgoing(typebot, LastBlock(typebot, gi).outgoingEdgeId)
  {
    var group := typebot.groups[gi];
    var last := |group.blocks| - 1;
    var blockId := group.blocks[last].id;
    LocateBlock(typebot, gi, last);
    assert Find(typebot.groups, (g: Group) => HasBlock(g, blockId)) == Some(group);
    assert FindIndex(group.blocks, (b: Block) => b.id == blockId) == last;
    assert LastBlock(typebot, gi) == group.blocks[last];
    assert GetNextBlock(typebot, blockId) == FollowOutgoing(typebot, group.blocks[last].outgoingEdgeId);
  }

  /** A group's last block without an outgoing edge has no next block. */
  lemma LastBlockWithoutEdge(typebot: Typebot, gi: int)
    requires LastLocated(typebot, gi) && !Truthy(LastBlock(typebot, gi).outgoingEdgeId)
    ensures GetNextBlock(typebot, LastBlock(typebot, gi).id).None?
  {
    LastBlockTakesEdge(typebot, gi);
  }

  /** A group's last block whose outgoing edge does not exist has no next block. */
  lemma MissingEdge(typebot: Typebot, gi: int)
    requires LastLocated(typebot, gi) && Truthy(LastBlock(typebot, gi).outgoingEdgeId)
    requires forall e :: 0 <= e < |typebot.edges| ==> typebot.edges[e].id != LastBlock(typebot, gi).outgoingEdgeId.value
    ensures GetNextBlock(typebot, LastBlock(typebot, gi).id).None?
  {
    LastBlockTakesEdge(typebot, gi);
  }

  /** A group's last block whose edge leads to a group that does not exist has no next block. */
  lemma MissingTargetGroup(typebot: Typebot, gi: int, ei: int)
    requires LastLocated(typebot, gi) && Truthy(LastBlock(typebot, gi).outgoingEdgeId)
    requires FirstEdge(typebot, ei, LastBlock(typebot, gi).outgoingEdgeId.value)
    requires forall g :: 0 <= g < |typebot.groups| ==> typebot.groups[g].id != typebot.edges[ei].to.groupId
    ensures GetNextBlock(typebot, LastBlock(typebot, gi).id).None?
  {
    LastBlockTakesEdge(typebot, gi);
    LocateEdge(typebot, ei, LastBlock(typebot, gi).outgoingEdgeId.value);
  }

  /**
    From a group's last block, an edge naming a block leads to the first
    block with that id in the target group, or to nothing when it has none.
   */
  lemma EdgeNamesBlock(typebot: Typebot, gi: int, ei: int, ti: int)
    requires LastLocated(typebot, gi) && Truthy(LastBlock(typebot, gi).outgoingEdgeId)
    requires FirstEdge(typebot, ei, LastBlock(typebot, gi).outgoingEdgeId.value)
    requires FirstGroup(typebot, ti, typebot.edges[ei].to.groupId)
    requires Truthy(typebot.edges[ei].to.blockId)
    ensures var target := typebot.edges[ei].to.blockId.value;
      var next := GetNextBlock(typebot, LastBlock(typebot, gi).id);
      (next.None? <==> forall j :: 0 <= j < |typebot.groups[ti].blocks| ==> typebot.groups[ti].blocks[j].id != target) &&
      (next.Some? ==> next.value in typebot.groups[ti].blocks && next.value.id == target)
  {
    var target := typebot.edges[ei].to.blockId.value;
    NamedBlockIsSearched(typebot, gi, ei, ti);
    var found := Find(typebot.groups[ti].blocks, (b: Block) => b.id == target);
    assert found.Some? ==> found.value.id == target;
  }

  lemma NamedBlockIsSearched(typebot: Typebot, gi: int, ei: int, ti: int)
    requires LastLocated(typebot, gi) && Truthy(LastBlock(typebot, gi).outgoingEdgeId)
    requires FirstEdge(typebot, ei, LastBlock(typebot, gi).outgoingEdgeId.value)
    requires FirstGroup(typebot, ti, typebot.edges[ei].to.groupId)
    requires Truthy(typebot.edges[ei].to.blockId)
    ensures GetNextBlock(typebot, LastBlock(typebot, gi).id) ==
      Find(typebot.groups[ti].blocks, (b: Block) => b.id == typebot.edges[ei].to.blockId.value)
  {
    LastBlockTakesEdge(typebot, gi);
    LocateEdge(typebot, ei, LastBlock(typebot, gi).outgoingEdgeId.value);
    LocateGroup(typebot, ti, typebot.edges[ei].to.groupId);
  }

  /**
    From a group's last block, an edge without a block id leads to the first
    block of the target group, or to nothing when that group is empty.
   */
  lemma LastBlockFollowsEdge(typebot: Typebot, gi: int, ei: int, ti: int)
    requires LastLocated(typebot, gi) && Truthy(LastBlock(typebot, gi).outgoingEdgeId)
    requires FirstEdge(typebot, ei, LastBlock(typebot, gi).outgoingEdgeId.value)
    requires FirstGroup(typebot, ti, typebot.edges[ei].to.groupId)
    requires !Truthy(typebot.edges[ei].to.blockId)
    ensures GetNextBlock(typebot, LastBlock(typebot, gi).id) ==
      if |typebot.groups[ti].blocks| > 0 then Some(typebot.groups[ti].blocks[0]) else None
  {
    LastBlockTakesEdge(typebot, gi);
    LocateEdge(typebot, ei, LastBlock(typebot, gi).outgoingEdgeId.value);
    LocateGroup(typebot, ti, typebot.edges[ei].to.groupId);
  }

  /** The rendered text of a bubble whose first rich-text node's first child is `{{name}}`. */
  function VariableTemplate(name: string): string
  {
    "{{" + name + "}}"
  }

  /**
    `isNextBubbleMessageWithAssistantMessage`: a variable name is given, a
    next block exists, and it is a text bubble whose first rich-text node's
    first child text is exactly `{{name}}`.
   */
  function IsNextBubbleMessageWithAssistantMessage(typebot: Typebot, blockId: string, assistantVariableName: Option<string>)
    : (r: bool)
    ensures r ==> Truthy(assistantVariableName) && GetNextBlock(typebot, blockId).Some?
    ensures r ==> var next := GetNextBlock(typebot, blockId).value;
      next.kind.Bubble? && next.kind.bubbleType == TextBubble &&
      |next.kind.richText| > 0 && |next.kind.richText[0].children| > 0 &&
      next.kind.richText[0].children[0].text == Some("{{" + assistantVariableName.value + "}}")
    ensures (Truthy(assistantVariableName) && GetNextBlock(typebot, blockId).Some? &&
             var next := GetNextBlock(typebot, blockId).value;
             next.kind.Bubble? && next.kind.bubbleType == TextBubble &&
             |next.kind.richText| > 0 && |next.kind.richText[0].children| > 0 &&
             next.kind.richText[0].children[0].text == Some("{{" + assistantVariableName.value + "}}"))
            ==> r
  {
    if !Truthy(assistantVariableName) then false
    else match GetNextBlock(typebot, blockId)
      case None => false
      case Some(next) =>
        next.kind.Bubble? && next.kind.bubbleType == TextBubble &&
        |next.kind.richText| > 0 && |next.kind.richText[0].children| > 0 &&
        next.kind.richText[0].children[0].text == Some(VariableTemplate(assistantVariableName.value))
  }

  /** A next text bubble showing `{{name}}` makes the stream displayed. */
  lemma TemplateBubbleDisplaysStream(typebot: Typebot, blockId: string, name: string, next: Block, rest: seq<RichChild>,
                                     nodes: seq<RichNode>)
    requires name != ""
    requires GetNextBlock(typebot, blockId) == Some(next)
    requires next.kind == Bubble(TextBubble, [RichNode([RichChild(Some(VariableTemplate(name)))] + rest)] + nodes)
    ensures IsNextBubbleMessageWithAssistantMessage(typebot, blockId, Some(name))
  {
  }

  /**
    The name of the variable receiving the message content: the variable
    whose id is the one mapped by the first `Message content` mapping.
   */
  function AssistantMessageVariableName(variables: seq<Variable>, responseMapping: seq<ResponseMapping>)
    : (r: Option<string>)
    ensures r.Some? ==> exists m, v :: (m in responseMapping && m.valueToExtract == "Message content" &&
                                        v in variables && m.variableId == Some(v.id) && v.name == r.value)
    ensures (forall m :: m in responseMapping ==> m.valueToExtract != "Message content") ==> r.None?
  {
    match Find(responseMapping, (m: ResponseMapping) => m.valueToExtract == "Message content")
    case None => None
    case Some(mapping) =>
      match Find(variables, (v: Variable) => mapping.variableId == Some(v.id))
      case None => None
      case Some(v) => Some(v.name)
  }

  /**
    When the first `Message content` mapping (position `k`) names the id of
    variable `i`, the first variable with that id, the name is that
    variable's name.
   */
  lemma AssistantNameFound(variables: seq<Variable>, responseMapping: seq<ResponseMapping>, k: int, i: int)
    requires 0 <= k < |responseMapping| && responseMapping[k].valueToExtract == "Message content"
    requires forall j :: 0 <= j < k ==> responseMapping[j].valueToExtract != "Message content"
    requires 0 <= i < |variables| && responseMapping[k].variableId == Some(variables[i].id)
    requires forall j :: 0 <= j < i ==> variables[j].id != variables[i].id
    ensures AssistantMessageVariableName(variables, responseMapping) == Some(variables[i].name)
  {
    var isContent := (m: ResponseMapping) => m.valueToExtract == "Message content";
    assert FindIndex(responseMapping, isContent) == k;
    var mapping := responseMapping[k];
    assert FindIndex(variables, (v: Variable) => mapping.variableId == Some(v.id)) == i;
  }

  // ---------------------------------------------------------------- createChatCompletionOpenAI

  /** A stored credentials record (encrypted). */
  datatype Credentials = Credentials(data: string, iv: string)

  /** The API's answer: the first choice's message content and the total token count. */
  datatype ChatResponse = ChatResponse(messageContent: Option<string>, totalTokens: Option<int>)

  /** What the request helper returns: maybe a response, and its logs. */
  datatype ChatRequestOutcome = ChatRequestOutcome(response: Option<ChatResponse>, logs: seq<Log>)

  const NoCredentialsError: Log := Log(Error, "Make sure to select an OpenAI account", None)

  /** The session after message parsing: variables turned into lists are written back, and only then. */
  function SessionAfterParsing(c: Collaborators, state: SessionState, parsed: ParsedMessages): (r: SessionState)
    ensures parsed.variablesTransformedToList == [] ==> r == state
    ensures parsed.variablesTransformedToList != [] ==> r == c.updateVariables(state, parsed.variablesTransformedToList)
  {
    if |parsed.variablesTransformedToList| > 0 then c.updateVariables(state, parsed.variablesTransformedToList) else state
  }

  /** `isEmpty`: undefined, null or the empty string. */
  predicate IsEmpty(s: Option<string>)
  {
    s.None? || s.value == ""
  }

  /**
    `createChatCompletionOpenAI`. The credentials record found by id, the
    deployment test (`isPlaneteScale`), the credentials-version test and the
    request to the API are parameters.
   */
  method CreateChatCompletionOpenAI(
    c: Collaborators, state: SessionState, outgoingEdgeId: Option<string>, options: ChatCompletionOptions, blockId: string,
    credentials: Option<Credentials>, isPlanetScale: bool, isCredentialsV2: bool,
    sendRequest: (string, seq<ChatMessage>, string, Option<int>) -> ChatRequestOutcome)
    returns (r: ExecResponse)
    // no credentials: one error log, the edge, the session untouched
    ensures !Truthy(options.credentialsId) || credentials.None? ==>
      r == ExecResponse(outgoingEdgeId, Some([NoCredentialsError]), None, None)
    ensures Truthy(options.credentialsId) && credentials.Some? ==>
      var parsed := c.parseChatCompletionMessages(state.typebot.variables, options.messages);
      var session := SessionAfterParsing(c, state, parsed);
      var streams := isPlanetScale && isCredentialsV2 && session.isStreamEnabled;
      // streaming: one action, the (maybe updated) session, no logs
      (streams ==>
        var name := AssistantMessageVariableName(state.typebot.variables, options.responseMapping);
        var display := IsNextBubbleMessageWithAssistantMessage(state.typebot, blockId, name);
        r == ExecResponse(outgoingEdgeId, None, Some(session),
                          Some([Action(StreamOpenAiChatCompletion(parsed.messages, display), None)]))) &&
      (!streams ==>
        var apiKey := c.decrypt(credentials.value.data, credentials.value.iv);
        var temperature := c.parseVariableNumber(session.typebot.variables, options.temperature);
        var outcome := sendRequest(apiKey, parsed.messages, options.model, temperature);
        // no response: the request's logs and the edge, the session untouched
        (outcome.response.None? ==> r == ExecResponse(outgoingEdgeId, Some(outcome.logs), None, None)) &&
        // an empty answer: the edge and the (maybe updated) session, no logs
        (outcome.response.Some? && IsEmpty(outcome.response.value.messageContent) ==>
          r == ExecResponse(outgoingEdgeId, None, Some(session), None)) &&
        (outcome.response.Some? && !IsEmpty(outcome.response.value.messageContent) ==>
          r == c.resumeChatCompletion(session, options, outgoingEdgeId, outcome.logs,
                                      outcome.response.value.messageContent.value, outcome.response.value.totalTokens)))
  {
    var newSessionState := state;
    if !Truthy(options.credentialsId) {
      return ExecResponse(outgoingEdgeId, Some([NoCredentialsError]), None, None);
    }
    if credentials.None? {
      return ExecResponse(outgoingEdgeId, Some([NoCredentialsError]), None, None);
    }
    var apiKey := c.decrypt(credentials.value.data, credentials.value.iv);
    var parsed := c.parseChatCompletionMessages(newSessionState.typebot.variables, options.messages);
    if |parsed.variablesTransformedToList| > 0 {
      newSessionState := c.updateVariables(state, parsed.variablesTransformedToList);
    }
    var temperature := c.parseVariableNumber(newSessionState.typebot.variables, options.temperature);
    if isPlanetScale && isCredentialsV2 && newSessionState.isStreamEnabled {
      var assistantMessageVariableName := AssistantMessageVariableName(state.typebot.variables, options.responseMapping);
      var displayStream := IsNextBubbleMessageWithAssistantMessage(state.typebot, blockId, assistantMessageVariableName);
      return ExecResponse(outgoingEdgeId, None, Some(newSessionState),
                          Some([Action(StreamOpenAiChatCompletion(parsed.messages, displayStream), None)]));
    }
    var outcome := sendRequest(apiKey, parsed.messages, options.model, temperature);
    if outcome.response.None? {
      return ExecResponse(outgoingEdgeId, Some(outcome.logs), None, None);
    }
    var messageContent := outcome.response.value.messageContent;
    var totalTokens := outcome.response.value.totalTokens;
    if IsEmpty(messageContent) {
      return ExecResponse(outgoingEdgeId, None, Some(newSessionState), None);
    }
    r := c.resumeChatCompletion(newSessionState, options, outgoingEdgeId, outcome.logs, messageContent.value, totalTokens);
  }
}
