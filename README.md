# Typebot viewer: the conversation-flow interpreter, in Dafny

This project models the part of the Typebot viewer that runs a conversation.
Starting from a group of blocks, it walks the blocks in order:

- it renders bubbles into messages;
- it stops at the first input block;
- it runs logic and integration blocks;
- it collects their client-side actions and logs;
- it follows edges from group to group.

Four of the block executors the walk relies on are also modelled:

- the condition block (AND/OR of comparisons with ten operators and list semantics);
- the webhook block (attribute preparation, Basic-Auth extraction, body parsing, request building and outcome classification);
- the OpenAI chat-completion block (credential checks, streaming versus server-side request, the look-up of the next block);
- the Google Analytics block.

Layout:

| file | module | what it holds |
|---|---|---|
| `Types.dfy` | `Types` | variables, the typebot graph, the session, reply pieces, and the `Collaborators` record of helpers whose code is not modelled |
| `Text.dfy` | `Text` | the JavaScript string operations used: `toLowerCase`, `trim`, `includes`, `startsWith`, `endsWith`, `indexOf`, `split` |
| `Condition.dfy` | `Condition` | `executeCondition`, `executeComparison`, `compare`, `parseDateOrNumber` |
| `Walker.dfy` | `Walker` | `executeGroup` as a method with its loop, proved equal to a functional specification (`Walk`), plus `parseInput` and `getPrefilledInputValue` |
| `Webhook.dfy` | `Webhook` | `executeWebhookBlock` and its helpers |
| `OpenAI.dfy` | `OpenAI` | `createChatCompletionOpenAI`, `getNextBlock`, `isNextBubbleMessageWithAssistantMessage` |
| `Analytics.dfy` | `Analytics` | `executeGoogleAnalyticsBlock` |

Inputs that come from outside the interpreter are parameters:

- database look-ups (the stored webhook, the credentials record);
- what the HTTP client did with the webhook request (`HttpOutcome`);
- the OpenAI request;
- the deployment and credential-version tests of the streaming branch.

The helpers the source calls but does not define become fields of `Types.Collaborators` and stay uninterpreted:

- `parseVariables`, `deepParseVariables`, `findUniqueVariableValue`;
- `executeLogic`, `executeIntegration`, `getNextGroup`;
- `resumeWebhookExecution`, `resumeChatCompletion`;
- `parseAnswers`, `parseSampleResult`, `parseChatCompletionMessages`;
- `updateVariables`, `parseVariableNumber`, `decrypt`;
- `Number`, `Date.parse`, `JSON.parse`, `qs.stringify`.

JavaScript truthiness is explicit: `Truthy` on an optional string, `BodyTruthy` on a request body. A `NaN` from `Number` or `Date.parse` is `None`.

`executeGroup` is modelled in two layers:

1. `Walker.Walk` and `Walker.Follow` form the specification. They are functions over the loop variables (`Scan`), one block at a time (`StepBlock`).
2. `Walker.ExecuteGroup` is the method with the source's `for` loop, `continue`, `break` and early returns. It is proved to return exactly `Walk`.

The walk's properties are lemmas about `Walk` and `ScanBlocks`.

## Model

| member | source | states |
|---|---|---|
| `Condition.ExecuteCondition` | apps/viewer/src/features/blocks/logic/condition/executeCondition.ts:12-17 | AND holds iff every comparison holds; any other operator holds iff some comparison holds |
| `Condition.EveryComparison` | apps/viewer/src/features/blocks/logic/condition/executeCondition.ts:16 | `every`: true iff each comparison passes |
| `Condition.SomeComparison` | apps/viewer/src/features/blocks/logic/condition/executeCondition.ts:17 | `some`: true iff at least one comparison passes |
| `Condition.ExecuteComparison` | apps/viewer/src/features/blocks/logic/condition/executeCondition.ts:19-93 | a comparison without a variable id, or without an operator, is false |
| `Condition.FindValue` | apps/viewer/src/features/blocks/logic/condition/executeCondition.ts:23-24 | the value of the first variable with the id, or null when there is none |
| `Condition.Comparand` | apps/viewer/src/features/blocks/logic/condition/executeCondition.ts:25-29 | the comparand is null exactly when the literal is `undefined` or `null` |
| `Condition.Compare` | apps/viewer/src/features/blocks/logic/condition/executeCondition.ts:95-115 | `compare`: on two scalars it is exactly the test; with an empty list on either side it holds iff the mode is `every` (vacuously) and never for `some`; over item pairs it is `CompareOnPairs` |
| `Condition.ParseDateOrNumber` | apps/viewer/src/features/blocks/logic/condition/executeCondition.ts:117-124 | the number when the text is numeric, otherwise the parsed date |
| `Condition.All` | apps/viewer/src/features/blocks/logic/condition/executeCondition.ts:102-113 | `every` over list items: true iff each item passes |
| `Condition.Any` | apps/viewer/src/features/blocks/logic/condition/executeCondition.ts:102-113 | `some` over list items: true iff one item passes |
| `Condition.Items` | apps/viewer/src/features/blocks/logic/condition/executeCondition.ts:95-115 | a list contributes its items, any other value itself |
| `Condition.CompareOnPairs` | apps/viewer/src/features/blocks/logic/condition/executeCondition.ts:95-115 | `compare` in EVERY mode holds iff the test holds for every (left item, right item) pair; in SOME mode iff for some pair |
| `Condition.ListSemantics` | apps/viewer/src/features/blocks/logic/condition/executeCondition.ts:32-91 | CONTAINS needs one matching pair of items; NOT_CONTAINS, EQUAL, NOT_EQUAL, STARTS_WITH and ENDS_WITH need every pair |
| `Condition.ContainsOnStrings` | apps/viewer/src/features/blocks/logic/condition/executeCondition.ts:32-38 | on two strings CONTAINS holds iff both are non-empty and the normalised second occurs in the normalised first (`Text.Includes`) |
| `Condition.EmptySideRules` | apps/viewer/src/features/blocks/logic/condition/executeCondition.ts:32-45 | a null or empty side makes CONTAINS false and NOT_CONTAINS true |
| `Condition.NotContainsNegatesContains` | apps/viewer/src/features/blocks/logic/condition/executeCondition.ts:32-45 | NOT_CONTAINS is exactly the negation of CONTAINS, lists included |
| `Condition.IsSetComplementsIsEmpty` | apps/viewer/src/features/blocks/logic/condition/executeCondition.ts:72-77 | IS_SET is exactly the negation of IS_EMPTY |
| `Condition.LessIsSwappedGreater` | apps/viewer/src/features/blocks/logic/condition/executeCondition.ts:52-71 | LESS is GREATER with the sides swapped, and the two never both hold |
| `Condition.GreaterOnStrings` | apps/viewer/src/features/blocks/logic/condition/executeCondition.ts:52-61 | on two strings GREATER compares their parsed numbers or dates; a null side makes it false |
| `Condition.GreaterStringAgainstList` | apps/viewer/src/features/blocks/logic/condition/executeCondition.ts:52-69 | a string against a list: GREATER/LESS compare the string's `Number` with the list's length, false when it is NaN |
| `Condition.GreaterListAgainstString` | apps/viewer/src/features/blocks/logic/condition/executeCondition.ts:52-69 | a list against a string: GREATER/LESS compare the list's length with the string's `Number`, false when it is NaN |
| `Condition.GreaterOnLists` | apps/viewer/src/features/blocks/logic/condition/executeCondition.ts:52-70 | two lists: GREATER/LESS compare their lengths |
| `Condition.UnparseableNeverCompares` | apps/viewer/src/features/blocks/logic/condition/executeCondition.ts:52-67 | text that parses neither as a number nor as a date makes GREATER and LESS false |
| `Condition.EqualAndNotEqualBothFailOnMixedList` | apps/viewer/src/features/blocks/logic/condition/executeCondition.ts:46-51 | when the comparand equals one item of a list and differs from another, EQUAL and NOT_EQUAL are both false |
| `Condition.CitiesNotEqualParis` | apps/viewer/src/features/blocks/logic/condition/executeCondition.ts:46-48 | a list `[Paris, Lyon]` does not EQUAL `Paris` |
| `Condition.AgeScenario` | apps/viewer/src/features/blocks/logic/condition/executeCondition.ts:12-61 | `age = "21"` passes an AND condition `age GREATER 18` |
| `Walker.FindDefined` | apps/viewer/src/features/chat/helpers/executeGroup.ts:155-158 | the value of the first variable with the id and a defined value, or none |
| `Walker.GetPrefilledInputValue` | apps/viewer/src/features/chat/helpers/executeGroup.ts:153-161 | a value only when the input's variable exists with a defined, non-empty value that is not a list, and then that value |
| `Walker.NumberOption` | apps/viewer/src/features/chat/helpers/executeGroup.ts:212-220 | an absent bound, or one whose substituted text is empty, stays absent; otherwise it is `Number` of the substituted text |
| `Walker.ParseInput` | apps/viewer/src/features/chat/helpers/executeGroup.ts:212-220 | a number input whose bound is absent keeps that bound absent |
| `Walker.ParseInputDispatch` | apps/viewer/src/features/chat/helpers/executeGroup.ts:191-236 | choice and picture-choice inputs go to their injectors; a number input is deep-parsed with the prefilled value and its bounds replaced by `NumberOption` of each; every other input is deep-parsed with the prefilled value, and with runtime options only for payment |
| `Walker.Tag` | apps/viewer/src/features/chat/helpers/executeGroup.ts:85-91 | the same actions in the same order, each tagged with the current last bubble |
| `Walker.HasBlocking` | apps/viewer/src/features/chat/helpers/executeGroup.ts:92-98 | true iff some action is a set-variable, a streamed completion or a webhook to execute |
| `Walker.StepOutcomes` | apps/viewer/src/features/chat/helpers/executeGroup.ts:46-118 | one loop iteration (`StepBlock`): it returns with an input exactly when the block is an input; every return sets `currentBlock` to that block; only a logic or integration block breaks out of the loop, and then with an edge to follow |
| `Walker.ScanBlocks` | apps/viewer/src/features/chat/helpers/executeGroup.ts:45-119 | the loop: every early return sets `currentBlock`, and a `break` always leaves an edge to follow |
| `Walker.Walk` | apps/viewer/src/features/chat/helpers/executeGroup.ts:27-141 | `executeGroup` on values: whatever group finally returns an input has set `currentBlock` |
| `Walker.Follow` | apps/viewer/src/features/chat/helpers/executeGroup.ts:121-140 | following the edge: an input returned from a later group carries a `currentBlock` |
| `Walker.ExecuteGroup` | apps/viewer/src/features/chat/helpers/executeGroup.ts:27-141 | the loop with its early returns, followed by the edge, computes exactly `Walk` |
| `Walker.FollowEdge` | apps/viewer/src/features/chat/helpers/executeGroup.ts:121-140 | after the loop: no edge or no next group returns what was accumulated (with the group's updated context), otherwise the next group runs with the messages, actions and logs carried over; exactly `Follow` |
| `Walker.ScanAppend` | apps/viewer/src/features/chat/helpers/executeGroup.ts:45-119 | running two runs of blocks is running the first, then the second only if the first ran to its end |
| `Walker.Rendered` | apps/viewer/src/features/chat/helpers/executeGroup.ts:48-54 | one rendered message per bubble block |
| `Walker.ScanBubbles` | apps/viewer/src/features/chat/helpers/executeGroup.ts:48-54 | each bubble appends exactly one message, in block order, after the earlier messages, and becomes the last bubble |
| `Walker.BubbleGroupTerminates` | apps/viewer/src/features/chat/helpers/executeGroup.ts:36-122 | a group of bubbles without an outgoing edge returns the carried-in messages followed by every bubble in order, with no input |
| `Walker.InputStopsTheWalk` | apps/viewer/src/features/chat/helpers/executeGroup.ts:56-69 | an input block returns at once with the input and `currentBlock` at that block; no later block runs |
| `Walker.InputStopsTheScan` | apps/viewer/src/features/chat/helpers/executeGroup.ts:56-69 | from any accumulated state, an input block returns at once with the input rendered against the current session, `currentBlock` at that block, and the accumulated messages, actions and logs; no later block runs |
| `Walker.InputAfterAnyRun` | apps/viewer/src/features/chat/helpers/executeGroup.ts:45-69 | after any run of blocks that reaches its end, logic and integration blocks included, an input block stops the walk with what that run accumulated |
| `Walker.NonBlockingResponseAppends` | apps/viewer/src/features/chat/helpers/executeGroup.ts:81-118 | a response without a blocking action appends its logs after the earlier logs and its actions, tagged, after the earlier actions, replaces the session when it brings one, adds no message, and leaves the group iff it names an edge |
| `Walker.BlockingActionStops` | apps/viewer/src/features/chat/helpers/executeGroup.ts:81-112 | a blocking action stops the walk at its block with no input, the new actions appended after the old and tagged, the new logs after the old |
| `Walker.EdgeOverrideEndsScan` | apps/viewer/src/features/chat/helpers/executeGroup.ts:115-118 | an executor's outgoing edge ends the group's scan and is the edge followed |
| `Walker.DeadEndReturnsAccumulated` | apps/viewer/src/features/chat/helpers/executeGroup.ts:121-130 | no next edge, or no next group, returns the accumulated messages, actions and logs, with no input |
| `Walker.ScanOnlyAppends` | apps/viewer/src/features/chat/helpers/executeGroup.ts:36-119 | the block loop only appends to messages, actions and logs; an input always carries a `currentBlock` |
| `Walker.WalkOnlyAppends` | apps/viewer/src/features/chat/helpers/executeGroup.ts:27-141 | across groups the carried-in reply is a prefix of the result's messages, actions and logs |
| `Webhook.PrepareWebhookAttributes` | apps/viewer/src/features/blocks/integrations/webhook/executeWebhookBlock.ts:83-93 | advanced configuration off gives the `{{state}}` body and the default method and tables; custom body off replaces only the body; otherwise unchanged; the url is never changed |
| `Webhook.PrepareIsIdempotent` | apps/viewer/src/features/blocks/integrations/webhook/executeWebhookBlock.ts:83-93 | preparing twice is preparing once |
| `Webhook.MatchDotsThenClose` | apps/viewer/src/features/blocks/integrations/webhook/executeWebhookBlock.ts:95 | the `.+}}$` tail of the pattern matches iff the text ends in `}}` after enough characters, none of them a line terminator |
| `Webhook.CheckIfBodyIsAVariable` | apps/viewer/src/features/blocks/integrations/webhook/executeWebhookBlock.ts:95 | true iff the body is `{{`, one or more characters other than line terminators, and `}}` |
| `Webhook.ConvertKeyValueTableToObject` | apps/viewer/src/features/blocks/integrations/webhook/executeWebhookBlock.ts:259-271 | no table gives no object |
| `Webhook.KeyedRowsKeys` | apps/viewer/src/features/blocks/integrations/webhook/executeWebhookBlock.ts:264-270 | when every row has a key, the object's keys are exactly the rows' keys |
| `Webhook.KeyedRowsLastWins` | apps/viewer/src/features/blocks/integrations/webhook/executeWebhookBlock.ts:264-270 | each key holds the substituted value of the last row with that key |
| `Webhook.KeylessRowResets` | apps/viewer/src/features/blocks/integrations/webhook/executeWebhookBlock.ts:265 | a row without a key discards every row before it |
| `Webhook.FindBasicAuthIndex` | apps/viewer/src/features/blocks/integrations/webhook/executeWebhookBlock.ts:107-111 | the index of the first `authorization` header whose value contains `basic` (both case-insensitive), or -1 when there is none |
| `Webhook.Credentials` | apps/viewer/src/features/blocks/integrations/webhook/executeWebhookBlock.ts:116-119 | the user name is always set |
| `Webhook.CredentialsRoundTrip` | apps/viewer/src/features/blocks/integrations/webhook/executeWebhookBlock.ts:116-119 | any six-character scheme (`Basic `, `basic `, ...) followed by `user:pass` gives back `user` and `pass` when neither holds a colon |
| `Webhook.PasswordStopsAtColon` | apps/viewer/src/features/blocks/integrations/webhook/executeWebhookBlock.ts:116-119 | a password holding a colon is cut at that colon |
| `Webhook.BasicAuthOf` | apps/viewer/src/features/blocks/integrations/webhook/executeWebhookBlock.ts:106-121 | no credentials unless the Basic-Auth header holds a colon; then exactly `Credentials` of that header's value |
| `Webhook.RemoveAt` | apps/viewer/src/features/blocks/integrations/webhook/executeWebhookBlock.ts:120 | the splice shortens the list by one |
| `Webhook.WithoutBasicAuthHeader` | apps/viewer/src/features/blocks/integrations/webhook/executeWebhookBlock.ts:112-121 | the header list is untouched unless the Basic-Auth header holds a colon; then exactly that header is spliced out |
| `Webhook.RemoveAtKeepsOthers` | apps/viewer/src/features/blocks/integrations/webhook/executeWebhookBlock.ts:120 | the splice keeps every other header, in order, and the header multiset loses only the removed one |
| `Webhook.QuerySuffix` | apps/viewer/src/features/blocks/integrations/webhook/executeWebhookBlock.ts:125-127 | empty iff the stringified query is empty; otherwise `?` followed by it |
| `Webhook.GetBodyContent` | apps/viewer/src/features/blocks/integrations/webhook/executeWebhookBlock.ts:230-257 | no body gives nothing; `{{state}}` gives the result's answers as JSON, or a sample result when there is no result; any other body is kept |
| `Webhook.SafeJsonParse` | apps/viewer/src/features/blocks/integrations/webhook/executeWebhookBlock.ts:274-280 | `isJson` iff the text parses; then the parsed value, otherwise the text unchanged |
| `Webhook.RequestBody` | apps/viewer/src/features/blocks/integrations/webhook/executeWebhookBlock.ts:137-144 | GET or an empty body gives no body; otherwise `SafeJsonParse` of the body with variables substituted, JSON-escaped unless the body is a single variable |
| `Webhook.ParsedAttributes` | apps/viewer/src/features/blocks/integrations/webhook/executeWebhookBlock.ts:97-156 | nothing iff url or method is missing; the method is kept; GET or an empty body gives no body and `isJson` false; `isJson` means a parsed body |
| `Webhook.ParseWebhookAttributes` | apps/viewer/src/features/blocks/integrations/webhook/executeWebhookBlock.ts:97-156 | computes `ParsedAttributes`, and leaves the header list with exactly the Basic-Auth header spliced out |
| `Webhook.BuildRequest` | apps/viewer/src/features/blocks/integrations/webhook/executeWebhookBlock.ts:163-177 | a JSON body goes in `json` unless form-encoded, in `form` when form-encoded, and a non-JSON body in `body`; credentials and headers pass through |
| `Webhook.RequestCarriesBody` | apps/viewer/src/features/blocks/integrations/webhook/executeWebhookBlock.ts:170-176 | a non-empty body is always sent, never both as `json` and in another field |
| `Webhook.Classify` | apps/viewer/src/features/blocks/integrations/webhook/executeWebhookBlock.ts:178-227 | exactly one log, a success iff the server answered without an error; the server's status, or 500 when no answer came |
| `Webhook.ExecuteWebhook` | apps/viewer/src/features/blocks/integrations/webhook/executeWebhookBlock.ts:158-228 | pushes exactly the log and builds exactly the response `Classify` describes |
| `Webhook.ExecuteWebhookBlock` | apps/viewer/src/features/blocks/integrations/webhook/executeWebhookBlock.ts:35-81 | a missing webhook, or attributes that do not parse, give one error log and the block's edge; on the client, exactly one webhook action and no logs; otherwise the resumed execution on the single outcome log |
| `OpenAI.GetNextBlock` | apps/viewer/src/features/blocks/integrations/openai/createChatCompletionOpenAI.ts:133-154 | nothing when no group holds the block; any block returned belongs to some group; the lemmas below state each branch |
| `OpenAI.NextInGroup` | apps/viewer/src/features/blocks/integrations/openai/createChatCompletionOpenAI.ts:136-142 | a block that is not last in its group is followed by the next block of that group |
| `OpenAI.LastBlockTakesEdge` | apps/viewer/src/features/blocks/integrations/openai/createChatCompletionOpenAI.ts:141-143 | after the last block of its group, the next block is wherever that block's outgoing edge leads |
| `OpenAI.FollowOutgoing` | apps/viewer/src/features/blocks/integrations/openai/createChatCompletionOpenAI.ts:143-153 | no edge id, or no edge with that id, gives no block; any block given belongs to one of the bot's groups |
| `OpenAI.EdgeTarget` | apps/viewer/src/features/blocks/integrations/openai/createChatCompletionOpenAI.ts:147-153 | an edge whose group does not exist leads nowhere; any block it leads to belongs to one of the bot's groups |
| `OpenAI.LastBlockWithoutEdge` | apps/viewer/src/features/blocks/integrations/openai/createChatCompletionOpenAI.ts:143-144 | a group's last block without an outgoing edge has no next block |
| `OpenAI.MissingEdge` | apps/viewer/src/features/blocks/integrations/openai/createChatCompletionOpenAI.ts:145-146 | a group's last block whose edge does not exist has no next block |
| `OpenAI.MissingTargetGroup` | apps/viewer/src/features/blocks/integrations/openai/createChatCompletionOpenAI.ts:147-148 | a group's last block whose edge leads to a missing group has no next block |
| `OpenAI.EdgeNamesBlock` | apps/viewer/src/features/blocks/integrations/openai/createChatCompletionOpenAI.ts:149-152 | an edge naming a block leads to a block of the target group with that id, and to nothing iff the target group has no such block |
| `OpenAI.NamedBlockIsSearched` | apps/viewer/src/features/blocks/integrations/openai/createChatCompletionOpenAI.ts:149-152 | an edge naming a block gives the search of the target group's blocks for that id |
| `OpenAI.LastBlockFollowsEdge` | apps/viewer/src/features/blocks/integrations/openai/createChatCompletionOpenAI.ts:143-153 | a group's last block, when its edge names no block, is followed by the first block of the target group, or by nothing when that group is empty |
| `OpenAI.IsNextBubbleMessageWithAssistantMessage` | apps/viewer/src/features/blocks/integrations/openai/createChatCompletionOpenAI.ts:119-131 | true iff a variable name is given and the next block is a text bubble whose first rich-text node has a first child whose text is exactly `{{name}}` |
| `OpenAI.TemplateBubbleDisplaysStream` | apps/viewer/src/features/blocks/integrations/openai/createChatCompletionOpenAI.ts:125-130 | a next text bubble whose first text is `{{name}}` makes the stream displayed |
| `OpenAI.AssistantMessageVariableName` | apps/viewer/src/features/blocks/integrations/openai/createChatCompletionOpenAI.ts:69-74 | a name only from a variable mapped by a `Message content` mapping; none without such a mapping |
| `OpenAI.AssistantNameFound` | apps/viewer/src/features/blocks/integrations/openai/createChatCompletionOpenAI.ts:69-74 | when the first `Message content` mapping names the id of a variable, the name is that of the first variable with that id |
| `OpenAI.SessionAfterParsing` | apps/viewer/src/features/blocks/integrations/openai/createChatCompletionOpenAI.ts:54-58 | the session changes only when some variable was turned into a list |
| `OpenAI.CreateChatCompletionOpenAI` | apps/viewer/src/features/blocks/integrations/openai/createChatCompletionOpenAI.ts:18-117 | no credentials id, or no record, gives one error log and no session change. Streaming gives exactly one streamed-completion action, the session, and no logs. No response gives the request's logs. An empty answer gives the session and no logs. Otherwise the resumed completion |
| `Analytics.ExecuteGoogleAnalyticsBlock` | apps/viewer/src/features/blocks/integrations/googleAnalytics/executeGoogleAnalyticsBlock.ts:5-22 | always the block's own edge, never logs nor a session; no result gives no action; otherwise exactly one analytics action parsed with typed values and empty strings removed |

## Left out

- Database and network: the stored webhook, the credentials record, the webhook HTTP call and the OpenAI request are parameters. Their outcomes are not modelled further: `HttpOutcome` does not model redirects or which statuses count as errors.
- Helpers whose code is not part of this model are uninterpreted fields of `Types.Collaborators`. This covers variable substitution, `deepParseVariables` (including `parseBubbleBlock` and the embed-height `parseFloat`), logic and integration dispatch, `getNextGroup`, the two resume functions, `parseAnswers`, `parseSampleResult`, message parsing, `updateVariables`, `parseVariableNumber`, `decrypt`, `qs.stringify` and `computePaymentInputRuntimeOptions`.
- Floating point and dates: `Number` and `Date.parse` are abstract parses to an optional integer, with `NaN` as none. The temperature and the number-input bounds go through the same abstraction.
- JSON: `JSON.parse` and `JSON.stringify` are abstract. Numbers are integers, and object key order is not kept (a `map`).
- `Text.Lower` folds ASCII letters only; `Text.IsSpace` covers the common white space and line terminators, not every Unicode space separator.
- `defaultWebhookAttributes` is not part of this model. `Webhook.WithDefaultAttributes` takes it as method POST, no headers, no query parameters.
- `Webhook.ParseWebhookAttributes` returns the spliced header list instead of mutating a shared array. Any other holder of that array would also see the splice; the caller never reads it again, so this is not modelled.
- `OpenAI.IsNextBubbleMessageWithAssistantMessage`: when the first rich-text node has no children, the source throws a `TypeError`; the model returns false.
- `Walker.ExecuteGroup` and `Walker.Walk` take a `fuel` bound on the number of groups followed. When it runs out, the walk returns what it accumulated. The source recurses without bound and does not terminate on a cycle of groups without input.
- `Walker.ParseInput` takes `computeRuntimeOptions` as the abstract payment-options computation, and ignores its asynchrony.
- Logging to the console (`console.error`) is not modelled.
- `Condition.Comparand`: variable substitution of an absent comparand is taken to give the empty text.
- Strings are sequences of characters, not of UTF-16 code units: `slice(6)`, `.length` and the string tests count characters, which differs from the source only on text outside the Basic Multilingual Plane.
- `Walker.ExecuteGroup` builds its own message sequence. The source pushes the new messages into the array of the reply passed in, so a caller holding that array sees them too. The model returns the same messages but does not capture that aliasing.
- Concurrency: every `await` is a plain sequential call.
