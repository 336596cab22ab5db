/**
  The group walker: runs a group's blocks in order, collecting messages,
  client-side actions and logs, stops at an input block or at an action
  the client must complete, and otherwise follows the outgoing edge into
  the next group. The source recursion has no bound; here `fuel` bounds
  the number of groups entered after the first.
 */
module Walker {
  import opened Types

  /** The reply carried in from the groups already walked. */
  datatype Reply = Reply(messages: seq<Message>, clientSideActions: Option<seq<Action>>, logs: Option<seq<Log>>)

  /** What `executeGroup` returns. */
  datatype GroupResult = GroupResult(
    messages: seq<Message>,
    input: Option<InputReply>,
    newSessionState: SessionState,
    clientSideActions: Option<seq<Action>>,
    logs: Option<seq<Log>>)

  // ---------------------------------------------------------------- input blocks

  /** `variables[k]` is the first variable with id `id` whose value is defined. */
  predicate FirstDefinedWithId(variables: seq<Variable>, id: string, k: int)
  {
    0 <= k < |variables| && variables[k].id == id && variables[k].value != Missing &&
    forall j :: 0 <= j < k ==> !(variables[j].id == id && variables[j].value != Missing)
  }

  function FindDefined(variables: seq<Variable>, id: string): (r: Value)
    ensures (exists k :: FirstDefinedWithId(variables, id, k)) ==>
      exists k :: FirstDefinedWithId(variables, id, k) && r == variables[k].value
    ensures (forall k :: !FirstDefinedWithId(variables, id, k)) ==> r == Missing
  {
    if variables == [] then Missing
    else if variables[0].id == id && variables[0].value != Missing then
      assert FirstDefinedWithId(variables, id, 0);
      variables[0].value
    else
      var r := FindDefined(variables[1..], id);
      assert forall k :: FirstDefinedWithId(variables, id, k) ==> FirstDefinedWithId(variables[1..], id, k - 1);
      assert forall k :: FirstDefinedWithId(variables[1..], id, k) ==> FirstDefinedWithId(variables, id, k + 1);
      r
  }

  /**
    `getPrefilledInputValue`: the value of the input's variable, only when
    that variable exists with a defined, non-empty value that is not a list.
   */
  function GetPrefilledInputValue(variables: seq<Variable>, options: InputOptions): (r: Option<string>)
    ensures r.Some? <==> (options.variableId.Some? &&
      exists k :: FirstDefinedWithId(variables, options.variableId.value, k) &&
        variables[k].value.Str? && variables[k].value.s != "")
    ensures r.Some? ==>
      exists k :: FirstDefinedWithId(variables, options.variableId.value, k) && variables[k].value == Str(r.value)
  {
    if options.variableId.None? then None
    else
      var v := FindDefined(variables, options.variableId.value);
      if v.Str? && v.s != "" then Some(v.s) else None
  }

  /** `isNotEmpty` on an option's text after variable substitution, then `Number`. */
  function NumberOption(c: Collaborators, variables: seq<Variable>, text: Option<string>): (r: Option<int>)
    ensures text.None? ==> r.None?
    ensures text.Some? && c.parseVariables(variables, text.value, false) == "" ==> r.None?
    ensures text.Some? && c.parseVariables(variables, text.value, false) != "" ==>
      r == c.toNumber(c.parseVariables(variables, text.value, false))
  {
    if text.None? then None
    else
      var parsed := c.parseVariables(variables, text.value, false);
      if parsed != "" then c.toNumber(parsed) else None
  }

  /** `parseInput`: the input request sent to the client for an input block. */
  function ParseInput(c: Collaborators, state: SessionState, block: Block): (r: InputReply)
    requires block.kind.Input?
    ensures block.kind.inputType == NumberInput ==>
      (block.kind.inputOptions.min.None? ==> r.min.None?) &&
      (block.kind.inputOptions.max.None? ==> r.max.None?) &&
      (block.kind.inputOptions.step.None? ==> r.step.None?)
  {
    var variables := state.typebot.variables;
    var options := block.kind.inputOptions;
    match block.kind.inputType
    case ChoiceInput => c.injectChoices(state, block)
    case PictureChoiceInput => c.injectPictureChoices(variables, block)
    case NumberInput =>
      var parsed := c.deepParseInput(variables, block, None, GetPrefilledInputValue(variables, options));
      parsed.(min := NumberOption(c, variables, options.min),
              max := NumberOption(c, variables, options.max),
              step := NumberOption(c, variables, options.step))
    case _ =>
      var runtimeOptions := if block.kind.inputType == PaymentInput then Some(c.computePaymentOptions(state, block)) else None;
      c.deepParseInput(variables, block, runtimeOptions, GetPrefilledInputValue(variables, options))
  }

  /**
    How `parseInput` dispatches on the input type: choice and picture-choice
    inputs go to their injectors; a number input is deep-parsed with the
    prefilled value and its bounds replaced; every other input is
    deep-parsed with the prefilled value and, for a payment input only, the
    runtime options.
   */
  lemma ParseInputDispatch(c: Collaborators, state: SessionState, block: Block)
    requires block.kind.Input?
    ensures var r := ParseInput(c, state, block);
      var variables := state.typebot.variables;
      var options := block.kind.inputOptions;
      var prefilled := GetPrefilledInputValue(variables, options);
      && (block.kind.inputType == ChoiceInput ==> r == c.injectChoices(state, block))
      && (block.kind.inputType == PictureChoiceInput ==> r == c.injectPictureChoices(variables, block))
      && (block.kind.inputType == NumberInput ==>
            && r.min == NumberOption(c, variables, options.min)
            && r.max == NumberOption(c, variables, options.max)
            && r.step == NumberOption(c, variables, options.step)
            && r == c.deepParseInput(variables, block, None, prefilled).(min := r.min, max := r.max, step := r.step))
      && (block.kind.inputType !in {ChoiceInput, PictureChoiceInput, NumberInput} ==>
            r == c.deepParseInput(variables, block,
                                  if block.kind.inputType == PaymentInput
                                  then Some(c.computePaymentOptions(state, block)) else None,
                                  prefilled))
  {
  }

  // ---------------------------------------------------------------- actions

  /** Every action of `actions` tagged with the bubble it follows, in order. */
  function Tag(actions: seq<Action>, lastBubbleBlockId: Option<string>): (r: seq<Action>)
    ensures |r| == |actions|
    ensures forall i :: 0 <= i < |r| ==>
      r[i].kind == actions[i].kind && r[i].lastBubbleBlockId == lastBubbleBlockId
  {
    if actions == [] then []
    else [actions[0].(lastBubbleBlockId := lastBubbleBlockId)] + Tag(actions[1..], lastBubbleBlockId)
  }

  function HasBlocking(actions: seq<Action>): (r: bool)
    ensures r <==> exists i :: 0 <= i < |actions| && IsBlocking(actions[i])
  {
    if actions == [] then false else IsBlocking(actions[0]) || HasBlocking(actions[1..])
  }

  // ---------------------------------------------------------------- the walk, as functions

  /** The loop variables of `executeGroup`. */
  datatype Scan = Scan(
    messages: seq<Message>,
    clientSideActions: Option<seq<Action>>,
    logs: Option<seq<Log>>,
    nextEdgeId: Option<string>,
    lastBubbleBlockId: Option<string>,
    state: SessionState)

  /** After one block: go on, leave the loop (`break`), or return from the walk. */
  datatype Step = Continue(scan: Scan) | Break(scan: Scan) | Stop(result: GroupResult)

  /** Merging an executor's response into the loop variables. */
  function ApplyResponse(group: Group, acc: Scan, block: Block, response: ExecResponse): Step
  {
    var logs := if response.logs.Some? then Some(OrEmpty(acc.logs) + response.logs.value) else acc.logs;
    var state := if response.newSessionState.Some? then response.newSessionState.value else acc.state;
    var actions :=
      if response.clientSideActions.Some?
      then Some(OrEmpty(acc.clientSideActions) + Tag(response.clientSideActions.value, acc.lastBubbleBlockId))
      else acc.clientSideActions;
    if response.clientSideActions.Some? && HasBlocking(response.clientSideActions.value) then
      Stop(GroupResult(acc.messages, None, state.(currentBlock := Some(BlockRef(group.id, block.id))), actions, logs))
    else
      var next := acc.(clientSideActions := actions, logs := logs, state := state);
      if Truthy(response.outgoingEdgeId) then Break(next.(nextEdgeId := response.outgoingEdgeId))
      else Continue(next)
  }

  /** One iteration of the block loop. */
  function StepBlock(c: Collaborators, group: Group, acc: Scan, block: Block): Step
  {
    var acc := acc.(nextEdgeId := block.outgoingEdgeId);
    match block.kind
    case Bubble(_, _) =>
      Continue(acc.(messages := acc.messages + [c.parseBubbleBlock(acc.state.typebot.variables, block)],
                    lastBubbleBlockId := Some(block.id)))
    case Input(_, _) =>
      Stop(GroupResult(acc.messages, Some(ParseInput(c, acc.state, block)),
                       acc.state.(currentBlock := Some(BlockRef(group.id, block.id))),
                       acc.clientSideActions, acc.logs))
    case Logic(_) => ApplyResponse(group, acc, block, c.executeLogic(acc.state, block))
    case Integration(_) => ApplyResponse(group, acc, block, c.executeIntegration(acc.state, block))
    case StartBlock => Continue(acc)
  }

  /**
    What one iteration can do: only an input returns with an input; any
    return anchors `currentBlock` at the block; only a logic or integration
    block leaves the loop early, and then with an edge to follow.
   */
  lemma StepOutcomes(c: Collaborators, group: Group, acc: Scan, block: Block)
    ensures var r := StepBlock(c, group, acc, block);
      && (r.Stop? ==> r.result.newSessionState.currentBlock == Some(BlockRef(group.id, block.id)))
      && (block.kind.Input? <==> r.Stop? && r.result.input.Some?)
      && (r.Break? ==> Truthy(r.scan.nextEdgeId) && (block.kind.Logic? || block.kind.Integration?))
  {
  }

  /** The block loop over `blocks`: `Continue` when it ran to the end. */
  function ScanBlocks(c: Collaborators, group: Group, acc: Scan, blocks: seq<Block>): (r: Step)
    ensures r.Stop? ==> r.result.newSessionState.currentBlock.Some?
    ensures r.Break? ==> Truthy(r.scan.nextEdgeId)
    decreases |blocks|
  {
    if blocks == [] then Continue(acc)
    else
      match StepBlock(c, group, acc, blocks[0])
      case Continue(next) => ScanBlocks(c, group, next, blocks[1..])
      case other => other
  }

  function Start(state: SessionState, reply: Reply, lastBubbleBlockId: Option<string>): Scan
  {
    Scan(reply.messages, reply.clientSideActions, reply.logs, None, lastBubbleBlockId, state)
  }

  function Finish(acc: Scan, state: SessionState): GroupResult
  {
    GroupResult(acc.messages, None, state, acc.clientSideActions, acc.logs)
  }

  /** `executeGroup` on values: the block loop, then the edge into the next group. */
  function Walk(c: Collaborators, state: SessionState, reply: Reply, lastBubbleBlockId: Option<string>,
                group: Group, fuel: nat): (r: GroupResult)
    ensures r.input.Some? ==> r.newSessionState.currentBlock.Some?
    decreases fuel
  {
    var step := ScanBlocks(c, group, Start(state, reply, lastBubbleBlockId), group.blocks);
    if step.Stop? then step.result else Follow(c, step.scan, fuel)
  }

  function Follow(c: Collaborators, acc: Scan, fuel: nat): (r: GroupResult)
    ensures r.input.Some? ==> r.newSessionState.currentBlock.Some?
    decreases fuel, 0
  {
    if !Truthy(acc.nextEdgeId) then Finish(acc, acc.state)
    else
      match c.getNextGroup(acc.state, acc.nextEdgeId.value)
      case None => Finish(acc, acc.state)
      case Some(next) =>
        var state := if next.updatedContext.Some? then next.updatedContext.value else acc.state;
        if fuel == 0 then Finish(acc, state)
        else Walk(c, state, Reply(acc.messages, acc.clientSideActions, acc.logs), acc.lastBubbleBlockId,
                  next.group, fuel - 1)
  }

  // ---------------------------------------------------------------- the walk, as the source runs it

  /** `executeGroup`: the block loop with early returns, then recursion into the next group. */
  method ExecuteGroup(c: Collaborators, state: SessionState, currentReply: Option<Reply>,
                      currentLastBubbleId: Option<string>, group: Group, fuel: nat)
    returns (r: GroupResult)
    ensures r == Walk(c, state, if currentReply.Some? then currentReply.value else Reply([], None, None),
                      currentLastBubbleId, group, fuel)
    decreases fuel, 1
  {
    var messages := if currentReply.Some? then currentReply.value.messages else [];
    var clientSideActions := if currentReply.Some? then currentReply.value.clientSideActions else None;
    var logs := if currentReply.Some? then currentReply.value.logs else None;
    var nextEdgeId: Option<string> := None;
    var lastBubbleBlockId := currentLastBubbleId;
    var newSessionState := state;
    ghost var reply := if currentReply.Some? then currentReply.value else Reply([], None, None);
    ghost var start := Scan(messages, clientSideActions, logs, nextEdgeId, lastBubbleBlockId, newSessionState);
    assert start == Start(state, reply, currentLastBubbleId);
    ghost var outcome := ScanBlocks(c, group, start, group.blocks);
    ghost var spec := Walk(c, state, reply, currentLastBubbleId, group, fuel);
    assert spec == if outcome.Stop? then outcome.result else Follow(c, outcome.scan, fuel);

    var i := 0;
    while i < |group.blocks|
      invariant 0 <= i <= |group.blocks|
      invariant outcome == ScanBlocks(c, group,
        Scan(messages, clientSideActions, logs, nextEdgeId, lastBubbleBlockId, newSessionState), group.blocks[i..])
    {
      var block := group.blocks[i];
      ghost var current := Scan(messages, clientSideActions, logs, nextEdgeId, lastBubbleBlockId, newSessionState);
      ghost var step := StepBlock(c, group, current, block);
      ScanStep(c, group, current, group.blocks, i);
      nextEdgeId := block.outgoingEdgeId;

      if block.kind.Bubble? {
        messages := messages + [c.parseBubbleBlock(newSessionState.typebot.variables, block)];
        lastBubbleBlockId := Some(block.id);
        assert step == Continue(Scan(messages, clientSideActions, logs, nextEdgeId, lastBubbleBlockId, newSessionState));
        i := i + 1;
        continue;
      }

      if block.kind.Input? {
        var input := ParseInput(c, newSessionState, block);
        r := GroupResult(messages, Some(input),
                         newSessionState.(currentBlock := Some(BlockRef(group.id, block.id))),
                         clientSideActions, logs);
        assert step == Stop(r);
        return;
      }

      if !block.kind.Logic? && !block.kind.Integration? {
        assert step == Continue(Scan(messages, clientSideActions, logs, nextEdgeId, lastBubbleBlockId, newSessionState));
        i := i + 1;
        continue;
      }
      var response := if block.kind.Logic? then c.executeLogic(newSessionState, block)
                      else c.executeIntegration(newSessionState, block);
      ghost var before := Scan(messages, clientSideActions, logs, nextEdgeId, lastBubbleBlockId, newSessionState);
      assert step == ApplyResponse(group, before, block, response);
      ApplyResponseCases(group, before, block, response);

      if response.logs.Some? {
        logs := Some(OrEmpty(logs) + response.logs.value);
      }
      if response.newSessionState.Some? {
        newSessionState := response.newSessionState.value;
      }
      if response.clientSideActions.Some? {
        clientSideActions := Some(OrEmpty(clientSideActions) + Tag(response.clientSideActions.value, lastBubbleBlockId));
        if HasBlocking(response.clientSideActions.value) {
          r := GroupResult(messages, None,
                           newSessionState.(currentBlock := Some(BlockRef(group.id, block.id))),
                           clientSideActions, logs);
          assert step == Stop(r);
          return;
        }
      }

      if Truthy(response.outgoingEdgeId) {
        nextEdgeId := response.outgoingEdgeId;
        assert step == Break(Scan(messages, clientSideActions, logs, nextEdgeId, lastBubbleBlockId, newSessionState));
        break;
      }
      assert step == Continue(Scan(messages, clientSideActions, logs, nextEdgeId, lastBubbleBlockId, newSessionState));
      i := i + 1;
    }
    assert !outcome.Stop? && outcome.scan == Scan(messages, clientSideActions, logs, nextEdgeId, lastBubbleBlockId, newSessionState);
    r := FollowEdge(c, messages, clientSideActions, logs, nextEdgeId, lastBubbleBlockId, newSessionState, fuel);
  }

  /** The end of `executeGroup`: follow the next edge into its group, or return what was gathered. */
  method FollowEdge(c: Collaborators, messages: seq<Message>, clientSideActions: Option<seq<Action>>,
                    logs: Option<seq<Log>>, nextEdgeId: Option<string>, lastBubbleBlockId: Option<string>,
                    newSessionState: SessionState, fuel: nat)
    returns (r: GroupResult)
    ensures r == Follow(c, Scan(messages, clientSideActions, logs, nextEdgeId, lastBubbleBlockId, newSessionState), fuel)
    decreases fuel, 0
  {
    if !Truthy(nextEdgeId) {
      return GroupResult(messages, None, newSessionState, clientSideActions, logs);
    }
    var state := newSessionState;
    var nextGroup := c.getNextGroup(newSessionState, nextEdgeId.value);
    if nextGroup.Some? && nextGroup.value.updatedContext.Some? {
      state := nextGroup.value.updatedContext.value;
    }
    if nextGroup.None? {
      return GroupResult(messages, None, state, clientSideActions, logs);
    }
    if fuel == 0 {
      return GroupResult(messages, None, state, clientSideActions, logs);
    }
    r := ExecuteGroup(c, state, Some(Reply(messages, clientSideActions, logs)), lastBubbleBlockId,
                      nextGroup.value.group, fuel - 1);
  }

  /** The three outcomes of merging a response, written out. */
  lemma ApplyResponseCases(group: Group, acc: Scan, block: Block, response: ExecResponse)
    ensures var logs := if response.logs.Some? then Some(OrEmpty(acc.logs) + response.logs.value) else acc.logs;
      var state := if response.newSessionState.Some? then response.newSessionState.value else acc.state;
      var actions :=
        if response.clientSideActions.Some?
        then Some(OrEmpty(acc.clientSideActions) + Tag(response.clientSideActions.value, acc.lastBubbleBlockId))
        else acc.clientSideActions;
      var blocking := response.clientSideActions.Some? && HasBlocking(response.clientSideActions.value);
      var next := acc.(clientSideActions := actions, logs := logs, state := state);
      ApplyResponse(group, acc, block, response) ==
        if blocking then
          Stop(GroupResult(acc.messages, None, state.(currentBlock := Some(BlockRef(group.id, block.id))), actions, logs))
        else if Truthy(response.outgoingEdgeId) then Break(next.(nextEdgeId := response.outgoingEdgeId))
        else Continue(next)
  {
  }

  /** One turn of the block loop: the scan of `blocks[i..]` is the step on `blocks[i]`, then the rest. */
  lemma ScanStep(c: Collaborators, group: Group, acc: Scan, blocks: seq<Block>, i: int)
    requires 0 <= i < |blocks|
    ensures ScanBlocks(c, group, acc, blocks[i..]) ==
      var step := StepBlock(c, group, acc, blocks[i]);
      if step.Continue? then ScanBlocks(c, group, step.scan, blocks[i + 1..]) else step
  {
    assert blocks[i..][0] == blocks[i] && blocks[i..][1..] == blocks[i + 1..];
  }

  // ---------------------------------------------------------------- properties of the walk

  /** Running `pre` then `rest` is running `pre`, and `rest` only when `pre` ran to its end. */
  lemma {:induction false} ScanAppend(c: Collaborators, group: Group, acc: Scan, pre: seq<Block>, rest: seq<Block>)
    ensures ScanBlocks(c, group, acc, pre + rest) ==
      var first := ScanBlocks(c, group, acc, pre);
      if first.Continue? then ScanBlocks(c, group, first.scan, rest) else first
    decreases |pre|
  {
    if pre == [] {
      assert pre + rest == rest;
    } else {
      assert (pre + rest)[0] == pre[0] && (pre + rest)[1..] == pre[1..] + rest;
      var step := StepBlock(c, group, acc, pre[0]);
      if step.Continue? {
        ScanAppend(c, group, step.scan, pre[1..], rest);
        assert ScanBlocks(c, group, acc, pre + rest) == ScanBlocks(c, group, step.scan, pre[1..] + rest);
        assert ScanBlocks(c, group, acc, pre) == ScanBlocks(c, group, step.scan, pre[1..]);
      } else {
        assert ScanBlocks(c, group, acc, pre + rest) == step;
        assert ScanBlocks(c, group, acc, pre) == step;
      }
    }
  }

  predicate AllBubbles(blocks: seq<Block>)
  {
    forall i :: 0 <= i < |blocks| ==> blocks[i].kind.Bubble?
  }

  /** The messages the bubbles of `blocks` render to, one per block, in block order. */
  function Rendered(c: Collaborators, variables: seq<Variable>, blocks: seq<Block>): (r: seq<Message>)
    ensures |r| == |blocks|
  {
    seq(|blocks|, i requires 0 <= i < |blocks| => c.parseBubbleBlock(variables, blocks[i]))
  }

  /**
    A run of bubble blocks appends exactly one message per block, in order,
    after the messages already there; the last one becomes the last bubble
    and its edge the next edge; actions, logs and the session are untouched.
   */
  lemma {:induction false} ScanBubbles(c: Collaborators, group: Group, acc: Scan, blocks: seq<Block>)
    requires blocks != [] && AllBubbles(blocks)
    ensures ScanBlocks(c, group, acc, blocks) ==
      Continue(acc.(messages := acc.messages + Rendered(c, acc.state.typebot.variables, blocks),
                    lastBubbleBlockId := Some(blocks[|blocks| - 1].id),
                    nextEdgeId := blocks[|blocks| - 1].outgoingEdgeId))
    decreases |blocks|
  {
    var vars := acc.state.typebot.variables;
    var next := acc.(nextEdgeId := blocks[0].outgoingEdgeId,
                     messages := acc.messages + [c.parseBubbleBlock(vars, blocks[0])],
                     lastBubbleBlockId := Some(blocks[0].id));
    assert StepBlock(c, group, acc, blocks[0]) == Continue(next);
    if |blocks| > 1 {
      ScanBubbles(c, group, next, blocks[1..]);
      assert Rendered(c, vars, blocks) == [c.parseBubbleBlock(vars, blocks[0])] + Rendered(c, vars, blocks[1..]);
    } else {
      assert Rendered(c, vars, blocks) == [c.parseBubbleBlock(vars, blocks[0])];
    }
  }

  /**
    A group of bubbles whose last block has no outgoing edge ends the walk:
    every bubble is in the reply in declaration order, there is no input,
    and actions, logs and the session are those carried in.
   */
  lemma BubbleGroupTerminates(c: Collaborators, state: SessionState, reply: Reply, lastBubbleBlockId: Option<string>,
                              group: Group, fuel: nat)
    requires group.blocks != [] && AllBubbles(group.blocks)
    requires !Truthy(group.blocks[|group.blocks| - 1].outgoingEdgeId)
    ensures Walk(c, state, reply, lastBubbleBlockId, group, fuel) ==
      GroupResult(reply.messages + Rendered(c, state.typebot.variables, group.blocks), None, state,
                  reply.clientSideActions, reply.logs)
  {
    ScanBubbles(c, group, Start(state, reply, lastBubbleBlockId), group.blocks);
  }

  /**
    Reaching an input block after a run of bubbles returns at once: the
    input is rendered, `currentBlock` anchors at that block, and no later
    block of the group (nor any later group) runs.
   */
  lemma InputStopsTheWalk(c: Collaborators, state: SessionState, reply: Reply, lastBubbleBlockId: Option<string>,
                          group: Group, fuel: nat, pre: seq<Block>, input: Block, rest: seq<Block>)
    requires group.blocks == pre + [input] + rest
    requires AllBubbles(pre) && input.kind.Input?
    ensures Walk(c, state, reply, lastBubbleBlockId, group, fuel) ==
      GroupResult(reply.messages + Rendered(c, state.typebot.variables, pre),
                  Some(ParseInput(c, state, input)),
                  state.(currentBlock := Some(BlockRef(group.id, input.id))),
                  reply.clientSideActions, reply.logs)
  {
    var acc := Start(state, reply, lastBubbleBlockId);
    assert group.blocks == pre + ([input] + rest);
    ScanAppend(c, group, acc, pre, [input] + rest);
    var mid := if pre == [] then acc else
      acc.(messages := acc.messages + Rendered(c, state.typebot.variables, pre),
           lastBubbleBlockId := Some(pre[|pre| - 1].id),
           nextEdgeId := pre[|pre| - 1].outgoingEdgeId);
    if pre != [] {
      ScanBubbles(c, group, acc, pre);
    } else {
      assert Rendered(c, state.typebot.variables, pre) == [];
    }
    assert ScanBlocks(c, group, acc, pre) == Continue(mid);
    assert ScanBlocks(c, group, mid, [input] + rest) == StepBlock(c, group, mid, input);
  }

  /**
    An input block returns at once, whatever ran before it: the input is
    rendered against the current session, `currentBlock` anchors at that
    block, the messages, actions and logs are those accumulated so far, and
    no later block runs.
   */
  lemma InputStopsTheScan(c: Collaborators, group: Group, acc: Scan, input: Block, rest: seq<Block>)
    requires input.kind.Input?
    ensures ScanBlocks(c, group, acc, [input] + rest) ==
      Stop(GroupResult(acc.messages, Some(ParseInput(c, acc.state, input)),
                       acc.state.(currentBlock := Some(BlockRef(group.id, input.id))),
                       acc.clientSideActions, acc.logs))
  {
    assert ([input] + rest)[0] == input;
  }

  /**
    After any run of blocks that reaches its end (logic and integration
    blocks included), an input block stops the walk with what that run
    accumulated.
   */
  lemma InputAfterAnyRun(c: Collaborators, group: Group, acc: Scan, pre: seq<Block>, input: Block, rest: seq<Block>)
    requires input.kind.Input? && ScanBlocks(c, group, acc, pre).Continue?
    ensures var mid := ScanBlocks(c, group, acc, pre).scan;
      ScanBlocks(c, group, acc, pre + [input] + rest) ==
        Stop(GroupResult(mid.messages, Some(ParseInput(c, mid.state, input)),
                         mid.state.(currentBlock := Some(BlockRef(group.id, input.id))),
                         mid.clientSideActions, mid.logs))
  {
    assert pre + [input] + rest == pre + ([input] + rest);
    ScanAppend(c, group, acc, pre, [input] + rest);
    InputStopsTheScan(c, group, ScanBlocks(c, group, acc, pre).scan, input, rest);
  }

  /**
    A logic or integration block whose response holds no blocking action
    lets the loop go on: its logs follow the earlier logs, its actions follow
    the earlier actions (each tagged with the current last bubble), its new
    session replaces the old, no message is added, and the loop leaves the
    group exactly when the response names an edge.
   */
  lemma NonBlockingResponseAppends(c: Collaborators, group: Group, acc: Scan, block: Block)
    requires block.kind.Logic? || block.kind.Integration?
    requires var response := if block.kind.Logic? then c.executeLogic(acc.state, block)
                             else c.executeIntegration(acc.state, block);
             !(response.clientSideActions.Some? && HasBlocking(response.clientSideActions.value))
    ensures var response := if block.kind.Logic? then c.executeLogic(acc.state, block)
                            else c.executeIntegration(acc.state, block);
      var step := StepBlock(c, group, acc, block);
      && !step.Stop?
      && (step.Break? <==> Truthy(response.outgoingEdgeId))
      && step.scan.messages == acc.messages
      && step.scan.lastBubbleBlockId == acc.lastBubbleBlockId
      && step.scan.nextEdgeId == (if Truthy(response.outgoingEdgeId) then response.outgoingEdgeId else block.outgoingEdgeId)
      && step.scan.logs == (if response.logs.Some? then Some(OrEmpty(acc.logs) + response.logs.value) else acc.logs)
      && step.scan.clientSideActions ==
           (if response.clientSideActions.Some?
            then Some(OrEmpty(acc.clientSideActions) + Tag(response.clientSideActions.value, acc.lastBubbleBlockId))
            else acc.clientSideActions)
      && step.scan.state == (if response.newSessionState.Some? then response.newSessionState.value else acc.state)
  {
  }

  /**
    When a logic or integration block returns a blocking action (set
    variable, streamed completion, webhook to run on the client), the walk
    stops there with `currentBlock` at that block and no input; the new
    actions follow the old ones, each tagged with the current last bubble.
   */
  lemma BlockingActionStops(c: Collaborators, group: Group, acc: Scan, block: Block, rest: seq<Block>)
    requires block.kind.Logic? || block.kind.Integration?
    requires var response := if block.kind.Logic? then c.executeLogic(acc.state, block)
                             else c.executeIntegration(acc.state, block);
             response.clientSideActions.Some? && HasBlocking(response.clientSideActions.value)
    ensures var response := if block.kind.Logic? then c.executeLogic(acc.state, block)
                            else c.executeIntegration(acc.state, block);
      var step := ScanBlocks(c, group, acc, [block] + rest);
      && step.Stop?
      && step.result.input.None?
      && step.result.newSessionState.currentBlock == Some(BlockRef(group.id, block.id))
      && step.result.messages == acc.messages
      && step.result.clientSideActions ==
           Some(OrEmpty(acc.clientSideActions) + Tag(response.clientSideActions.value, acc.lastBubbleBlockId))
      && step.result.logs == (if response.logs.Some? then Some(OrEmpty(acc.logs) + response.logs.value) else acc.logs)
  {
    assert ([block] + rest)[0] == block;
  }

  /**
    A response's outgoing edge ends the scan of the group: the blocks after
    it do not run and that edge is the one followed.
   */
  lemma EdgeOverrideEndsScan(c: Collaborators, group: Group, acc: Scan, block: Block, rest: seq<Block>)
    requires block.kind.Logic? || block.kind.Integration?
    requires var response := if block.kind.Logic? then c.executeLogic(acc.state, block)
                             else c.executeIntegration(acc.state, block);
             !(response.clientSideActions.Some? && HasBlocking(response.clientSideActions.value)) &&
             Truthy(response.outgoingEdgeId)
    ensures var response := if block.kind.Logic? then c.executeLogic(acc.state, block)
                            else c.executeIntegration(acc.state, block);
      var step := ScanBlocks(c, group, acc, [block] + rest);
      step.Break? && step.scan.nextEdgeId == response.outgoingEdgeId && step == ScanBlocks(c, group, acc, [block])
  {
    assert ([block] + rest)[0] == block && ([block] + rest)[1..] == rest;
  }

  /**
    When the block loop ends with no edge to follow, or with an edge that
    leads to no group, the walk returns what it accumulated, with no input.
   */
  lemma DeadEndReturnsAccumulated(c: Collaborators, state: SessionState, reply: Reply,
                                  lastBubbleBlockId: Option<string>, group: Group, fuel: nat)
    requires var step := ScanBlocks(c, group, Start(state, reply, lastBubbleBlockId), group.blocks);
      !step.Stop? &&
      (!Truthy(step.scan.nextEdgeId) || c.getNextGroup(step.scan.state, step.scan.nextEdgeId.value).None?)
    ensures var a := ScanBlocks(c, group, Start(state, reply, lastBubbleBlockId), group.blocks).scan;
      Walk(c, state, reply, lastBubbleBlockId, group, fuel) ==
        GroupResult(a.messages, None, a.state, a.clientSideActions, a.logs)
  {
  }

  /** The accumulators of `to` extend those of `from`. */
  predicate Extends(from: Scan, messages: seq<Message>, actions: Option<seq<Action>>, logs: Option<seq<Log>>)
  {
    from.messages <= messages &&
    OrEmpty(from.clientSideActions) <= OrEmpty(actions) &&
    OrEmpty(from.logs) <= OrEmpty(logs)
  }

  /** The block loop only appends to messages, actions and logs; an input comes with an anchor. */
  lemma {:induction false} ScanOnlyAppends(c: Collaborators, group: Group, acc: Scan, blocks: seq<Block>)
    ensures match ScanBlocks(c, group, acc, blocks)
      case Continue(a) => Extends(acc, a.messages, a.clientSideActions, a.logs)
      case Break(a) => Extends(acc, a.messages, a.clientSideActions, a.logs)
      case Stop(r) => Extends(acc, r.messages, r.clientSideActions, r.logs) &&
                      (r.input.Some? ==> r.newSessionState.currentBlock.Some?)
    decreases |blocks|
  {
    if blocks != [] {
      var step := StepBlock(c, group, acc, blocks[0]);
      match step
      case Continue(next) =>
        assert Extends(acc, next.messages, next.clientSideActions, next.logs);
        ScanOnlyAppends(c, group, next, blocks[1..]);
      case _ =>
    }
  }

  /**
    Across any number of groups the walk only appends: the reply carried in
    is a prefix of the reply returned (messages, actions and logs alike), and
    a returned input always comes with a `currentBlock` anchor.
   */
  lemma {:induction false} WalkOnlyAppends(c: Collaborators, state: SessionState, reply: Reply,
                                           lastBubbleBlockId: Option<string>, group: Group, fuel: nat)
    ensures var r := Walk(c, state, reply, lastBubbleBlockId, group, fuel);
      && reply.messages <= r.messages
      && OrEmpty(reply.clientSideActions) <= OrEmpty(r.clientSideActions)
      && OrEmpty(reply.logs) <= OrEmpty(r.logs)
      && (r.input.Some? ==> r.newSessionState.currentBlock.Some?)
    decreases fuel
  {
    var acc := Start(state, reply, lastBubbleBlockId);
    ScanOnlyAppends(c, group, acc, group.blocks);
    var step := ScanBlocks(c, group, acc, group.blocks);
    if !step.Stop? {
      var a := step.scan;
      if Truthy(a.nextEdgeId) {
        var next := c.getNextGroup(a.state, a.nextEdgeId.value);
        if next.Some? && fuel > 0 {
          var st := if next.value.updatedContext.Some? then next.value.updatedContext.value else a.state;
          WalkOnlyAppends(c, st, Reply(a.messages, a.clientSideActions, a.logs), a.lastBubbleBlockId,
                          next.value.group, fuel - 1);
        }
      }
    }
  }
}
